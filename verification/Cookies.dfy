/**
  getCookie and setCookie, on cookie strings that a browser may hold: pairs without semicolons, blanks and further
  equals signs in names.  Section 4.2.1 of RFC 6265 allows fewer; `Standard` is its own grammar.
*/
module Cookies {
  datatype Pair = Pair(name: string, value: string)

  // ---------------------------------------------------------------- string operations

  /** `s.split(c)` */
  function Split(s: string, c: char): (parts: seq<string>)
    ensures parts != []
  {
    if s == "" then [""]
    else
      var rest := Split(s[1..], c);
      if s[0] == c then [""] + rest else [[s[0]] + rest[0]] + rest[1..]
  }

  function WithoutBlanks(s: string): string { if s != "" && s[0] == ' ' then WithoutBlanks(s[1..]) else s }

  lemma {:induction false} SplitOne(s: string, c: char)
    requires c !in s
    ensures Split(s, c) == [s]
  {
    if s != "" {
      assert s[0] in s && [s[0]] + s[1..] == s;
      SplitOne(s[1..], c);
    }
  }

  lemma {:induction false} SplitAt(s: string, c: char, t: string)
    requires c !in s
    ensures Split(s + [c] + t, c) == [s] + Split(t, c)
  {
    var all := s + [c] + t;
    if s == "" {
      assert all == [c] + t && all[1..] == t;
    } else {
      SplitAt(s[1..], c, t);
      assert all[1..] == s[1..] + [c] + t && all[0] == s[0] && s[0] in s;
      assert ([s[1..]] + Split(t, c))[1..] == Split(t, c) && [s[0]] + s[1..] == s;
    }
  }

  // ---------------------------------------------------------------- cookie strings

  /** Wider than a token: without the separators that matter here. */
  predicate NameOk(s: string) { s != "" && forall c <- s :: c !in "=; " }

  predicate ValueOk(s: string) { forall c <- s :: c !in "; " }

  predicate PairOk(p: Pair) { NameOk(p.name) && ValueOk(p.value) }

  predicate AllOk(ps: seq<Pair>) { forall p <- ps :: PairOk(p) }

  function Printed(p: Pair): string { p.name + "=" + p.value }

  /** cookie-string: pairs with a semicolon and a blank between them. */
  function CookieString(ps: seq<Pair>): string {
    if ps == [] then "" else if |ps| == 1 then Printed(ps[0]) else Printed(ps[0]) + ";" + (" " + CookieString(ps[1..]))
  }

  /** The value of the first pair with this name, or "". */
  function FirstValue(ps: seq<Pair>, name: string): string {
    if ps == [] then "" else if ps[0].name == name then ps[0].value else FirstValue(ps[1..], name)
  }

  // ---------------------------------------------------------------- getCookie

  /** What the loop of getCookie returns for these tokens. */
  function Search(tokens: seq<string>, search: string): string {
    if tokens == [] then ""
    else
      var token := WithoutBlanks(tokens[0]);
      if search <= token then token[|search|..] else Search(tokens[1..], search)
  }

  method GetCookie(cookie: string, name: string) returns (value: string)
    ensures value == Search(Split(cookie, ';'), name + "=")
  {
    var search := name + "=";
    var cookieTokens := Split(cookie, ';');
    for i := 0 to |cookieTokens|
      invariant Search(cookieTokens[i..], search) == Search(cookieTokens, search)
    {
      var token := cookieTokens[i];
      while token != "" && token[0] == ' '
        invariant WithoutBlanks(token) == WithoutBlanks(cookieTokens[i])
        decreases |token|
      {
        token := token[1..];
      }
      assert token == WithoutBlanks(cookieTokens[i]);
      if search <= token {
        return token[|search|..];
      }
      assert cookieTokens[i..][1..] == cookieTokens[i + 1..];
    }
    return "";
  }

  // ---------------------------------------------------------------- setCookie

  /** A jar of cookies of one path: a known name keeps its place. */
  function Replaced(jar: seq<Pair>, p: Pair): seq<Pair> {
    if jar == [] then [p]
    else if jar[0].name == p.name then [p] + jar[1..]
    else [jar[0]] + Replaced(jar[1..], p)
  }

  function EqualsSign(s: string): (k: nat)
    ensures k <= |s|
  {
    if s == "" || s[0] == '=' then 0 else 1 + EqualsSign(s[1..])
  }

  /** What the browser makes of a string assigned to document.cookie (section 5.2 of RFC 6265, without attributes). */
  function Assigned(jar: seq<Pair>, s: string): seq<Pair> {
    var part := Split(s, ';')[0];
    var k := EqualsSign(part);
    if k == |part| then jar else Replaced(jar, Pair(part[..k], part[k + 1..]))
  }

  lemma AssignedPair(jar: seq<Pair>, name: string, value: string)
    requires NameOk(name) && ValueOk(value)
    ensures Assigned(jar, name + "=" + value + ";path=/") == Replaced(jar, Pair(name, value))
  {
    var part := Printed(Pair(name, value));
    PrintedOk(Pair(name, value));
    assert name + "=" + value + ";path=/" == part + [';'] + "path=/";
    SplitAt(part, ';', "path=/");
    FirstEqualsSign(name, value);
    assert part[..|name|] == name && part[|name| + 1..] == value;
  }

  class Document {
    var cookies: seq<Pair>

    constructor ()
      ensures cookies == []
    {
      cookies := [];
    }

    /** setCookie */
    method SetCookie(name: string, value: string)
      modifies this
      ensures cookies == Assigned(old(cookies), name + "=" + value + ";path=/")
      ensures NameOk(name) && ValueOk(value) ==> cookies == Replaced(old(cookies), Pair(name, value))
    {
      cookies := Assigned(cookies, name + "=" + value + ";path=/");
      if NameOk(name) && ValueOk(value) { AssignedPair(old(cookies), name, value); }
    }
  }

  // ---------------------------------------------------------------- properties

  lemma PrintedOk(p: Pair)
    requires PairOk(p)
    ensures ';' !in Printed(p) && Printed(p) != "" && Printed(p)[0] != ' '
  {
    assert Printed(p)[0] == p.name[0] && p.name[0] in p.name;
    assert forall c <- Printed(p) :: c in p.name || c == '=' || c in p.value;
  }

  /** The name could also be read as a well-formed pair: a name, an equals sign and a value. */
  predicate Misleading(name: string) {
    var k := EqualsSign(name);
    k < |name| && NameOk(name[..k]) && ValueOk(name[k + 1..])
  }

  /** p is taken for a pair with the name looked for, and has another name. */
  ghost predicate Misread(p: Pair, name: string) { name + "=" <= Printed(p) && p.name != name }

  ghost predicate NoneMisread(ps: seq<Pair>, name: string) { forall p <- ps :: !Misread(p, name) }

  lemma PrintedParts(p: Pair)
    ensures p.name + "=" <= Printed(p) && Printed(p)[|p.name| + 1..] == p.value
  {
  }

  /** What is misread begins with the name looked for, and that one with the pair's name. */
  lemma MisreadParts(p: Pair, name: string) returns (tail: string)
    requires PairOk(p) && Misread(p, name)
    ensures var k := EqualsSign(name);
      k < |name| && p.name == name[..k] && p.value == name[k + 1..] + ("=" + tail)
  {
    hide NameOk, ValueOk, EqualsSign;
    NoEqualsSign(p);
    EqualsSignFirst(name);
    tail := Printed(p)[|name| + 1..];
    assert Printed(p) == name + "=" + tail;
    var k := EqualsSign(name);
    if k == |name| {
      assert name[..k] == name;
      SameSplit(name, tail, p.name, p.value);
      assert false;
    }
    assert name == name[..k] + "=" + name[k + 1..];
    Regroup(name[..k], name[k + 1..], tail);
    SameSplit(name[..k], name[k + 1..] + ("=" + tail), p.name, p.value);
  }

  lemma MisreadIsMisleading(p: Pair, name: string)
    requires PairOk(p) && Misread(p, name)
    ensures Misleading(name)
  {
    hide NameOk, ValueOk, EqualsSign;
    var tail := MisreadParts(p, name);
    ValuePrefix(name[EqualsSign(name) + 1..], "=" + tail);
  }

  lemma Regroup(a: string, b: string, c: string)
    ensures a + "=" + b + "=" + c == a + "=" + (b + ("=" + c))
  {
  }

  lemma SameSplit(a: string, x: string, b: string, y: string)
    requires '=' !in a && '=' !in b && a + "=" + x == b + "=" + y
    ensures a == b && x == y
  {
    FirstEqualsSign(a, x);
    FirstEqualsSign(b, y);
    var s := a + "=" + x;
    assert s[..|a|] == a && s[..|a|] == b && s[|a| + 1..] == x && s[|a| + 1..] == y;
  }

  lemma NoEqualsSign(p: Pair)
    requires PairOk(p)
    ensures '=' !in p.name
  {
  }

  lemma ValuePrefix(s: string, t: string)
    ensures ValueOk(s + t) ==> ValueOk(s)
  {
    forall c | c in s ensures c in s + t { }
  }

  lemma ValueMore(s: string)
    requires ValueOk(s)
    ensures ValueOk(s + "=x")
  {
    assert forall c <- s + "=x" :: c in s || c == '=' || c == 'x';
  }

  lemma {:induction false} EqualsSignFirst(s: string)
    ensures '=' !in s[..EqualsSign(s)] && (EqualsSign(s) < |s| ==> s[EqualsSign(s)] == '=')
  {
    if s != "" && s[0] != '=' {
      EqualsSignFirst(s[1..]);
      assert s[..EqualsSign(s)] == [s[0]] + s[1..][..EqualsSign(s[1..])];
    }
  }

  lemma {:induction false} FirstEqualsSign(name: string, value: string)
    requires '=' !in name
    ensures EqualsSign(name + "=" + value) == |name|
  {
    if name != "" {
      assert name[0] in name && (name + "=" + value)[1..] == name[1..] + "=" + value;
      FirstEqualsSign(name[1..], value);
    }
  }

  /** Blanks in front of the string make no difference. */
  lemma {:induction false} FindsFirst(ps: seq<Pair>, name: string, blank: string)
    requires AllOk(ps) && NoneMisread(ps, name) && (blank == "" || blank == " ")
    ensures Search(Split(blank + CookieString(ps), ';'), name + "=") == FirstValue(ps, name)
    decreases |ps|
  {
    hide Printed, Split, WithoutBlanks, PairOk, Misread;
    if ps == [] {
      NothingFound(blank, name + "=");
      assert blank + "" == blank;
    } else {
      var p, rest := ps[0], ps[1..];
      assert p in ps && forall q <- rest :: q in ps;
      PairFound(p, name, blank);
      if rest == [] {
        PrintedOk(p);
        SplitOne(blank + Printed(p), ';');
        assert [blank + Printed(p)] + [] == [blank + Printed(p)];
        SearchHead(blank + Printed(p), [], name + "=");
      } else {
        FindsFirst(rest, name, " ");
        var tail := " " + CookieString(rest);
        assert blank + CookieString(ps) == (blank + Printed(p)) + [';'] + tail;
        PrintedOk(p);
        SplitAt(blank + Printed(p), ';', tail);
        SearchHead(blank + Printed(p), Split(tail, ';'), name + "=");
      }
    }
  }

  lemma NothingFound(blank: string, search: string)
    requires (blank == "" || blank == " ") && search != ""
    ensures Search(Split(blank, ';'), search) == ""
  {
    SplitOne(blank, ';');
    assert WithoutBlanks(blank) == "" && Split(blank, ';')[1..] == [];
  }

  lemma SearchHead(head: string, tokens: seq<string>, search: string)
    ensures Search([head] + tokens, search) ==
      if search <= WithoutBlanks(head) then WithoutBlanks(head)[|search|..] else Search(tokens, search)
  {
    assert ([head] + tokens)[1..] == tokens;
  }

  lemma PairFound(p: Pair, name: string, blank: string)
    requires PairOk(p) && !Misread(p, name) && (blank == "" || blank == " ")
    ensures name + "=" <= WithoutBlanks(blank + Printed(p)) <==> p.name == name
    ensures p.name == name ==> WithoutBlanks(blank + Printed(p))[|name + "="|..] == p.value
  {
    PrintedOk(p);
    BlankDropped(blank, Printed(p));
    PrintedParts(p);
  }

  lemma BlankDropped(blank: string, s: string)
    requires (blank == "" || blank == " ") && s != "" && s[0] != ' '
    ensures WithoutBlanks(blank + s) == s
  {
    if blank == "" { assert blank + s == s; } else { assert (blank + s)[1..] == s; }
  }

  /** If no pair of the cookie string is misread, getCookie gives the value of the first one with the name. */
  lemma GetsUnread(ps: seq<Pair>, name: string)
    requires AllOk(ps) && NoneMisread(ps, name)
    ensures Search(Split(CookieString(ps), ';'), name + "=") == FirstValue(ps, name)
  {
    FindsFirst(ps, name, "");
    assert "" + CookieString(ps) == CookieString(ps);
  }

  /** getCookie on a cookie string gives the value of the first pair with the name. */
  lemma GetsFirst(ps: seq<Pair>, name: string)
    requires AllOk(ps) && !Misleading(name)
    ensures Search(Split(CookieString(ps), ';'), name + "=") == FirstValue(ps, name)
  {
    forall p <- ps ensures !Misread(p, name) {
      if Misread(p, name) { MisreadIsMisleading(p, name); }
    }
    GetsUnread(ps, name);
  }

  /** A single pair that continues the name looked for is misread. */
  lemma OnePairMisleads(name: string, tail: string)
    requires EqualsSign(name) < |name|
    requires PairOk(Pair(name[..EqualsSign(name)], name[EqualsSign(name) + 1..] + "=" + tail))
    ensures var k := EqualsSign(name); var ps := [Pair(name[..k], name[k + 1..] + "=" + tail)];
      Search(Split(CookieString(ps), ';'), name + "=") == tail && FirstValue(ps, name) == ""
  {
    hide PairOk, EqualsSign, Search, Split, CookieString;
    var k := EqualsSign(name);
    var p := Pair(name[..k], name[k + 1..] + "=" + tail);
    EqualsSignFirst(name);
    Rejoin(name, k, tail);
    FoundInOne(p, name + "=");
    assert |p.name| == k && [p][1..] == [];
  }

  lemma Rejoin(name: string, k: nat, tail: string)
    requires k < |name| && name[k] == '='
    ensures var s := Printed(Pair(name[..k], name[k + 1..] + "=" + tail));
      s == name + "=" + tail && name + "=" <= s && s[|name + "="|..] == tail
  {
    assert name == name[..k] + "=" + name[k + 1..];
    assert Printed(Pair(name[..k], name[k + 1..] + "=" + tail)) == name + "=" + tail;
  }

  /** Every misleading name misleads on some cookie string. */
  lemma MisleadsOn(name: string)
    requires Misleading(name)
    ensures var k := EqualsSign(name); var ps := [Pair(name[..k], name[k + 1..] + "=x")];
      AllOk(ps) && Search(Split(CookieString(ps), ';'), name + "=") == "x" && FirstValue(ps, name) == ""
  {
    hide NameOk, ValueOk, EqualsSign;
    var b := name[EqualsSign(name) + 1..];
    ValueMore(b);
    assert b + "=" + "x" == b + "=x";
    OnePairMisleads(name, "x");
  }

  lemma FoundInOne(p: Pair, search: string)
    requires PairOk(p) && search <= Printed(p)
    ensures Search(Split(CookieString([p]), ';'), search) == Printed(p)[|search|..]
  {
    hide PairOk;
    PrintedOk(p);
    SplitOne(Printed(p), ';');
    assert WithoutBlanks(Printed(p)) == Printed(p);
  }

  /** getCookie is right about a name on all cookie strings exactly when the name is not misleading. */
  lemma RightIff(name: string)
    ensures (forall ps :: AllOk(ps) ==> Search(Split(CookieString(ps), ';'), name + "=") == FirstValue(ps, name))
      <==> !Misleading(name)
  {
    if Misleading(name) {
      MisleadsOn(name);
    } else {
      forall ps | AllOk(ps) ensures Search(Split(CookieString(ps), ';'), name + "=") == FirstValue(ps, name) {
        GetsFirst(ps, name);
      }
    }
  }

  // The grammar of section 4.2.1 itself.

  /** A character of a token, section 2.2 of RFC 2616: no control, no separator. */
  predicate TokenChar(c: char) { '!' <= c <= '~' && c !in "()<>@,;:\\\"/[]?={}" }

  /** A cookie-octet. */
  predicate Octet(c: char) {
    c == '!' || '#' <= c <= '+' || '-' <= c <= ':' || '<' <= c <= '[' || ']' <= c <= '~'
  }

  predicate Octets(s: string) { forall c <- s :: Octet(c) }

  predicate StandardName(s: string) { s != "" && forall c <- s :: TokenChar(c) }

  predicate StandardValue(s: string) { Octets(s) || Quoted(s) }

  predicate Quoted(s: string) { |s| >= 2 && s[0] == '"' && s[|s| - 1] == '"' && Octets(s[1..|s| - 1]) }

  predicate Standard(ps: seq<Pair>) { forall p <- ps :: StandardName(p.name) && StandardValue(p.value) }

  /** The name could also be read as the beginning of a pair of that grammar. */
  predicate StandardMisleading(name: string) {
    var k := EqualsSign(name);
    k < |name| && StandardName(name[..k]) && BeginsValue(name[k + 1..])
  }

  /** s, and an equals sign after it, can begin a value: a quoted one must not be at its end yet. */
  predicate BeginsValue(s: string) { Octets(s) || (s != "" && s[0] == '"' && Octets(s[1..])) }

  lemma QuotedAt(s: string, i: nat)
    requires Quoted(s) && 0 < i < |s| - 1
    ensures Octet(s[i])
  {
    assert s[1..|s| - 1][i - 1] == s[i] && s[i] in s[1..|s| - 1];
  }

  lemma StandardAt(s: string, i: nat)
    requires StandardValue(s) && i < |s|
    ensures Octet(s[i]) || s[i] == '"'
  {
    hide Octet;
    assert s[i] in s;
    if Quoted(s) && 0 < i < |s| - 1 { QuotedAt(s, i); }
  }

  lemma StandardOk(p: Pair)
    requires StandardName(p.name) && StandardValue(p.value)
    ensures PairOk(p)
  {
    hide StandardValue;
    forall i | 0 <= i < |p.value| ensures p.value[i] !in "; " { StandardAt(p.value, i); }
  }

  lemma BeginsIff(s: string, tail: string)
    requires StandardValue(s + ("=" + tail))
    ensures BeginsValue(s)
  {
    hide Octet, Quoted;
    var v := s + ("=" + tail);
    if Octets(v) {
      OctetsBegin(s, "=" + tail);
    } else if s != "" {
      QuotedBegin(s, tail);
    }
  }

  lemma OctetsBegin(s: string, t: string)
    requires Octets(s + t)
    ensures Octets(s)
  {
    hide Octet;
    forall c <- s ensures Octet(c) { assert c in s + t; }
  }

  lemma QuotedBegin(s: string, tail: string)
    requires Quoted(s + ("=" + tail)) && s != ""
    ensures s[0] == '"' && Octets(s[1..])
  {
    hide Octet;
    var v := s + ("=" + tail);
    assert v[0] == s[0] && v[0] == '"';
    forall i | 0 <= i < |s[1..]| ensures Octet(s[1..][i]) {
      assert s[1..][i] == s[i + 1] == v[i + 1];
      QuotedAt(v, i + 1);
    }
  }

  lemma OctetsMore(s: string)
    requires Octets(s)
    ensures Octets(s + "=" + "x")
  {
  }

  /** How a pair goes on after its value began with s and an equals sign. */
  function Ending(s: string): string { if Octets(s) then "x" else "x\"" }

  lemma EndingOk(s: string)
    requires BeginsValue(s)
    ensures StandardValue(s + "=" + Ending(s))
  {
    if Octets(s) {
      OctetsMore(s);
    } else {
      var v := s + "=" + Ending(s);
      OctetsMore(s[1..]);
      assert v[1..|v| - 1] == s[1..] + "=" + "x";
    }
  }

  /** On all cookie strings of that grammar, getCookie is right about a name iff the name does not begin such a pair. */
  lemma StandardRightIff(name: string)
    ensures (forall ps :: Standard(ps) ==>
        Search(Split(CookieString(ps), ';'), name + "=") == FirstValue(ps, name)) <==>
      !StandardMisleading(name)
  {
    hide StandardName, StandardValue, BeginsValue, EqualsSign, Search, Split, FirstValue, CookieString;
    if StandardMisleading(name) {
      var k := EqualsSign(name);
      var b := name[k + 1..];
      var p := Pair(name[..k], b + "=" + Ending(b));
      EndingOk(b);
      StandardOk(p);
      OnePairMisleads(name, Ending(b));
      assert Standard([p]);
    } else {
      forall ps | Standard(ps) ensures Search(Split(CookieString(ps), ';'), name + "=") == FirstValue(ps, name) {
        StandardUnread(ps, name);
        GetsUnread(ps, name);
      }
    }
  }

  lemma StandardUnread(ps: seq<Pair>, name: string)
    requires Standard(ps) && !StandardMisleading(name)
    ensures AllOk(ps) && NoneMisread(ps, name)
  {
    hide StandardName, StandardValue, BeginsValue, PairOk, Misread, EqualsSign;
    forall p <- ps ensures PairOk(p) && !Misread(p, name) {
      StandardOk(p);
      if Misread(p, name) {
        var tail := MisreadParts(p, name);
        BeginsIff(name[EqualsSign(name) + 1..], tail);
        assert false;
      }
    }
  }

  /** Safe are all names without an equals sign, and all that begin with one. */
  lemma MisleadingNeedsEqualsSign(name: string)
    ensures '=' !in name || "=" <= name ==> !Misleading(name) && !StandardMisleading(name)
  {
    EqualsSignFirst(name);
    if EqualsSign(name) < |name| { assert name[EqualsSign(name)] in name; }
  }

  lemma {:induction false} ReplacedOk(jar: seq<Pair>, p: Pair)
    requires AllOk(jar) && PairOk(p)
    ensures AllOk(Replaced(jar, p))
  {
    if jar != [] {
      assert forall q <- jar[1..] :: q in jar;
      ReplacedOk(jar[1..], p);
    }
  }

  lemma {:induction false} ReplacedValue(jar: seq<Pair>, p: Pair, other: string)
    ensures FirstValue(Replaced(jar, p), other) == if other == p.name then p.value else FirstValue(jar, other)
  {
    if jar == [] {
      assert [p][1..] == [];
    } else if jar[0].name == p.name {
      assert ([p] + jar[1..])[1..] == jar[1..];
    } else {
      ReplacedValue(jar[1..], p, other);
      assert ([jar[0]] + Replaced(jar[1..], p))[1..] == Replaced(jar[1..], p);
    }
  }

  /** What setCookie stores, getCookie gives back; cookies of other names keep their values. */
  lemma SetThenGet(jar: seq<Pair>, name: string, value: string, other: string)
    requires AllOk(jar) && NameOk(name) && ValueOk(value) && !Misleading(other)
    ensures var after := Assigned(jar, name + "=" + value + ";path=/");
      Search(Split(CookieString(after), ';'), other + "=") ==
      if other == name then value else Search(Split(CookieString(jar), ';'), other + "=")
  {
    var p := Pair(name, value);
    AssignedPair(jar, name, value);
    ReplacedOk(jar, p);
    GetsFirst(Replaced(jar, p), other);
    GetsFirst(jar, other);
    ReplacedValue(jar, p, other);
  }
}
