/** The HTML printer of fontawesome.js, and a parser showing that printing loses nothing. */
module Html {
  import opened Basics

  // ---------------------------------------------------------------- escaping

  /** `str.replace(/c/g, by)` */
  function ReplaceAll(s: string, c: char, sub: string): string {
    if s == "" then "" else (if s[0] == c then sub else [s[0]]) + ReplaceAll(s[1..], c, sub)
  }

  /** htmlEscape: five passes over the whole string, one after the other. */
  function HtmlEscape(s: string): string {
    ReplaceAll(ReplaceAll(ReplaceAll(ReplaceAll(ReplaceAll(s,
      '&', "&amp;"), '"', "&quot;"), '\'', "&#39;"), '<', "&lt;"), '>', "&gt;")
  }

  function Entity(c: char): string {
    match c
    case '&' => "&amp;"
    case '"' => "&quot;"
    case '\'' => "&#39;"
    case '<' => "&lt;"
    case '>' => "&gt;"
    case _ => [c]
  }

  function Escape(s: string): string { if s == "" then "" else Entity(s[0]) + Escape(s[1..]) }

  lemma Associative(a: string, b: string, c: string)
    ensures a + (b + c) == (a + b) + c
  {
  }

  lemma {:induction false} ReplaceConcat(s: string, t: string, c: char, sub: string)
    ensures ReplaceAll(s + t, c, sub) == ReplaceAll(s, c, sub) + ReplaceAll(t, c, sub)
  {
    if s == "" {
      assert s + t == t;
    } else {
      ReplaceConcat(s[1..], t, c, sub);
      assert (s + t)[1..] == s[1..] + t && (s + t)[0] == s[0];
      Associative(if s[0] == c then sub else [s[0]], ReplaceAll(s[1..], c, sub), ReplaceAll(t, c, sub));
    }
  }

  lemma EscapePasses(s: string, t: string)
    ensures HtmlEscape(s + t) == HtmlEscape(s) + HtmlEscape(t)
  {
    ReplaceConcat(s, t, '&', "&amp;");
    var s1, t1 := ReplaceAll(s, '&', "&amp;"), ReplaceAll(t, '&', "&amp;");
    ReplaceConcat(s1, t1, '"', "&quot;");
    var s2, t2 := ReplaceAll(s1, '"', "&quot;"), ReplaceAll(t1, '"', "&quot;");
    ReplaceConcat(s2, t2, '\'', "&#39;");
    var s3, t3 := ReplaceAll(s2, '\'', "&#39;"), ReplaceAll(t2, '\'', "&#39;");
    ReplaceConcat(s3, t3, '<', "&lt;");
    ReplaceConcat(ReplaceAll(s3, '<', "&lt;"), ReplaceAll(t3, '<', "&lt;"), '>', "&gt;");
  }

  /** A pass leaves a string without its character alone. */
  lemma {:induction false} ReplaceNothing(s: string, c: char, sub: string)
    requires c !in s
    ensures ReplaceAll(s, c, sub) == s
  {
    if s != "" {
      assert s == [s[0]] + s[1..];
      ReplaceNothing(s[1..], c, sub);
    }
  }

  lemma ReplaceIt(c: char, sub: string)
    ensures ReplaceAll([c], c, sub) == sub
  {
    assert [c][1..] == "";
    assert sub + "" == sub;
  }

  lemma EscapeOne(c: char)
    ensures HtmlEscape([c]) == Entity(c)
  {
    hide ReplaceAll;
    var s1 := ReplaceAll([c], '&', "&amp;");
    if c == '&' { ReplaceIt(c, "&amp;"); } else { ReplaceNothing([c], '&', "&amp;"); }
    var s2 := ReplaceAll(s1, '"', "&quot;");
    if c == '"' { ReplaceIt(c, "&quot;"); } else { ReplaceNothing(s1, '"', "&quot;"); }
    var s3 := ReplaceAll(s2, '\'', "&#39;");
    if c == '\'' { ReplaceIt(c, "&#39;"); } else { ReplaceNothing(s2, '\'', "&#39;"); }
    var s4 := ReplaceAll(s3, '<', "&lt;");
    if c == '<' { ReplaceIt(c, "&lt;"); } else { ReplaceNothing(s3, '<', "&lt;"); }
    if c == '>' { ReplaceIt(c, "&gt;"); } else { ReplaceNothing(s4, '>', "&gt;"); }
  }

  /** The five passes amount to one substitution, character by character. */
  lemma {:induction false} EscapeIsPerCharacter(s: string)
    ensures HtmlEscape(s) == Escape(s)
  {
    if s != "" {
      assert s == [s[0]] + s[1..];
      EscapePasses([s[0]], s[1..]);
      EscapeOne(s[0]);
      EscapeIsPerCharacter(s[1..]);
    }
  }

  function Unescape(s: string): string {
    if s == "" then ""
    else if "&amp;" <= s then "&" + Unescape(s[5..])
    else if "&quot;" <= s then "\"" + Unescape(s[6..])
    else if "&#39;" <= s then "'" + Unescape(s[5..])
    else if "&lt;" <= s then "<" + Unescape(s[4..])
    else if "&gt;" <= s then ">" + Unescape(s[4..])
    else [s[0]] + Unescape(s[1..])
  }

  lemma UnescapeOther(s: string)
    requires s != "" && s[0] != '&'
    ensures Unescape(s) == [s[0]] + Unescape(s[1..])
  {
  }

  lemma UnescapeEntity(c: char, t: string)
    ensures Unescape(Entity(c) + t) == [c] + Unescape(t)
  {
    hide Unescape;
    var s := Entity(c) + t;
    assert s[|Entity(c)|..] == t && Entity(c) <= s;
    if c == '&' || c == '"' || c == '\'' || c == '<' || c == '>' {
      UnescapeMark(c, s);
    } else {
      UnescapeOther(s);
    }
  }

  /** No entity is a prefix of another one. */
  lemma UnescapeMark(c: char, s: string)
    requires (c == '&' || c == '"' || c == '\'' || c == '<' || c == '>') && Entity(c) <= s
    ensures Unescape(s) == [c] + Unescape(s[|Entity(c)|..])
  {
    assert s[0] == Entity(c)[0] && s[1] == Entity(c)[1] && s[2] == Entity(c)[2];
  }

  /** Escaping has a left inverse, whatever follows. */
  lemma {:induction false} UnescapeEscape(s: string, t: string)
    ensures Unescape(Escape(s) + t) == s + Unescape(t)
  {
    hide Unescape, Entity;
    if s == "" {
      assert Escape(s) + t == t;
    } else {
      assert Escape(s) + t == Entity(s[0]) + (Escape(s[1..]) + t);
      UnescapeEntity(s[0], Escape(s[1..]) + t);
      UnescapeEscape(s[1..], t);
      assert s + Unescape(t) == [s[0]] + (s[1..] + Unescape(t));
    }
  }

  /** htmlEscape loses nothing, and what it returns is safe in text and in a quoted attribute. */
  lemma HtmlEscapeInverts(s: string)
    ensures Unescape(HtmlEscape(s)) == s
    ensures forall c <- HtmlEscape(s) :: c !in "\"'<>"
  {
    EscapeIsPerCharacter(s);
    UnescapeEscape(s, "");
    assert Escape(s) + "" == Escape(s);
    EscapeSafe(s);
  }

  lemma {:induction false} EscapeSafe(s: string)
    ensures forall c <- Escape(s) :: c !in "\"'<>"
  {
    if s != "" { EscapeSafe(s[1..]); }
  }

  lemma EscapeNonempty(s: string)
    requires s != ""
    ensures Escape(s) != ""
  {
  }

  lemma {:induction false} EscapeConcat(s: string, t: string)
    ensures Escape(s + t) == Escape(s) + Escape(t)
  {
    hide Entity;
    if s == "" {
      assert s + t == t;
    } else {
      EscapeConcat(s[1..], t);
      assert (s + t)[1..] == s[1..] + t && (s + t)[0] == s[0];
      Associative(Entity(s[0]), Escape(s[1..]), Escape(t));
    }
  }

  // ---------------------------------------------------------------- attributes

  datatype Attribute = Attribute(name: string, value: string)

  predicate IsSpace(c: char) {
    || '\t' <= c <= '\r' || c == ' ' || c == '\U{A0}' || c == '\U{1680}' || '\U{2000}' <= c <= '\U{200A}'
    || c == '\U{2028}' || c == '\U{2029}' || c == '\U{202F}' || c == '\U{205F}' || c == '\U{3000}' || c == '\U{FEFF}'
  }

  function TrimStart(s: string): string { if s == "" || !IsSpace(s[0]) then s else TrimStart(s[1..]) }

  function TrimEnd(s: string): string {
    if s == "" || !IsSpace(s[|s| - 1]) then s else TrimEnd(s[..|s| - 1])
  }

  /** `s.trim()` */
  function Trim(s: string): string { TrimEnd(TrimStart(s)) }

  function PrintAttribute(a: Attribute): string { a.name + "=\"" + HtmlEscape(a.value) + "\"" }

  /** The reduce of joinAttributes, from accumulator acc on. */
  function ReduceAttributes(acc: string, attributes: seq<Attribute>): string
    decreases |attributes|
  {
    if attributes == [] then acc else ReduceAttributes(acc + (PrintAttribute(attributes[0]) + " "), attributes[1..])
  }

  /** joinAttributes */
  function JoinAttributes(attributes: seq<Attribute>): string { Trim(ReduceAttributes("", attributes)) }

  /** The attributes one blank apart. */
  function Spaced(attributes: seq<Attribute>): string {
    if attributes == [] then ""
    else if |attributes| == 1 then PrintAttribute(attributes[0])
    else PrintAttribute(attributes[0]) + (" " + Spaced(attributes[1..]))
  }

  predicate NameChar(c: char) { !IsSpace(c) && c !in "=\"'<>/" }

  predicate WellNamed(name: string) { name != "" && forall c <- name :: NameChar(c) }

  predicate AttributesOk(attributes: seq<Attribute>) { forall a <- attributes :: WellNamed(a.name) }

  lemma {:induction false} ReduceIsSpaced(acc: string, attributes: seq<Attribute>)
    ensures ReduceAttributes(acc, attributes) == acc + (if attributes == [] then "" else Spaced(attributes) + " ")
    decreases |attributes|
  {
    if attributes != [] {
      var head := PrintAttribute(attributes[0]);
      ReduceIsSpaced(acc + (head + " "), attributes[1..]);
      if |attributes| > 1 {
        assert acc + (head + " ") + (Spaced(attributes[1..]) + " ") ==
          acc + (head + (" " + Spaced(attributes[1..])) + " ");
      } else {
        assert acc + (head + " ") + "" == acc + (head + " ");
      }
    }
  }

  lemma {:induction false} SpacedEnds(attributes: seq<Attribute>)
    requires attributes != []
    ensures Spaced(attributes) != "" && Spaced(attributes)[|Spaced(attributes)| - 1] == '"'
  {
    hide HtmlEscape;
    var head := PrintAttribute(attributes[0]);
    assert head[|head| - 1] == '"';
    if |attributes| > 1 {
      SpacedEnds(attributes[1..]);
      var tail := " " + Spaced(attributes[1..]);
      assert Spaced(attributes) == head + tail;
      assert (head + tail)[|head + tail| - 1] == tail[|tail| - 1] == '"';
    }
  }

  lemma TrimBlank(s: string)
    requires s != "" && !IsSpace(s[0]) && !IsSpace(s[|s| - 1])
    ensures Trim(s + " ") == s
  {
    hide IsSpace;
    assert IsSpace(' ') by { BlankIsSpace(); }
    var t := s + " ";
    assert t[0] == s[0] && t[|t| - 1] == ' ' && t[..|t| - 1] == s;
    assert TrimStart(t) == t && TrimEnd(t) == TrimEnd(t[..|t| - 1]) && TrimEnd(s) == s;
  }

  lemma BlankIsSpace()
    ensures IsSpace(' ') && !IsSpace('"')
  {
  }

  /** Trimming removes the last blank and nothing else. */
  lemma JoinIsSpaced(attributes: seq<Attribute>)
    requires AttributesOk(attributes)
    ensures JoinAttributes(attributes) == Spaced(attributes)
  {
    hide IsSpace, Trim, PrintAttribute;
    ReduceIsSpaced("", attributes);
    if attributes != [] {
      SpacedEnds(attributes);
      SpacedStarts(attributes);
      BlankIsSpace();
      TrimBlank(Spaced(attributes));
      assert "" + (Spaced(attributes) + " ") == Spaced(attributes) + " ";
    } else {
      TrimNothing();
      assert "" + "" == "";
    }
  }

  lemma TrimNothing()
    ensures Trim("") == ""
  {
  }

  lemma SpacedStarts(attributes: seq<Attribute>)
    requires AttributesOk(attributes) && attributes != []
    ensures Spaced(attributes) != "" && !IsSpace(Spaced(attributes)[0])
  {
    hide IsSpace, HtmlEscape;
    var name := attributes[0].name;
    assert attributes[0] in attributes && WellNamed(name);
    assert PrintAttribute(attributes[0])[0] == name[0] && name[0] in name && NameChar(name[0]);
  }

  // ---------------------------------------------------------------- trees

  datatype Node = Text(text: string) | Element(tag: string, attributes: seq<Attribute>, children: seq<Node>)

  /** toHtml */
  function ToHtml(n: Node): string
    decreases n
  {
    match n
    case Text(s) => HtmlEscape(s)
    case Element(tag, attributes, children) =>
      "<" + tag + " " + JoinAttributes(attributes) + ">" + (ToHtmls(children) + ("</" + tag + ">"))
  }

  /** `nodes.map(toHtml).join('')` */
  function ToHtmls(ns: seq<Node>): string
    decreases ns
  {
    if ns == [] then "" else ToHtml(ns[0]) + ToHtmls(ns[1..])
  }

  predicate WellFormed(ns: seq<Node>) {
    forall n <- ns :: n.Element? ==> WellNamed(n.tag) && AttributesOk(n.attributes) && WellFormed(n.children)
  }

  /** Adjacent texts become one and empty ones disappear: all that printing forgets. */
  function Normal(ns: seq<Node>): seq<Node>
    decreases ns
  {
    if ns == [] then []
    else
      match ns[0]
      case Text(s) => Glue(s, Normal(ns[1..]))
      case Element(tag, attributes, children) => [Element(tag, attributes, Normal(children))] + Normal(ns[1..])
  }

  function Glue(s: string, ns: seq<Node>): seq<Node> {
    if s == "" then ns
    else if ns != [] && ns[0].Text? then [Text(s + ns[0].text)] + ns[1..]
    else [Text(s)] + ns
  }

  /** No empty text, and no two texts next to each other. */
  predicate IsNormal(ns: seq<Node>) {
    && (forall n <- ns :: if n.Text? then n.text != "" else IsNormal(n.children))
    && (forall i :: 0 <= i < |ns| - 1 ==> !(ns[i].Text? && ns[i + 1].Text?))
  }

  /** Normal keeps exactly the trees that are normal. */
  lemma {:induction false} NormalFixes(ns: seq<Node>)
    ensures IsNormal(Normal(ns))
    ensures IsNormal(ns) ==> Normal(ns) == ns
    decreases ns
  {
    if ns != [] {
      NormalFixes(ns[1..]);
      assert ns == [ns[0]] + ns[1..];
      if IsNormal(ns) { NormalTail(ns); }
      if ns[0].Element? {
        NormalFixes(ns[0].children);
        ConsNormal(Element(ns[0].tag, ns[0].attributes, Normal(ns[0].children)), Normal(ns[1..]));
        assert IsNormal(ns) ==> ns[0] in ns && IsNormal(ns[0].children);
      } else {
        GlueNormal(ns[0].text, Normal(ns[1..]));
        assert IsNormal(ns) ==> ns[0] in ns && ns[0].text != "";
      }
    }
  }

  lemma ConsNormal(n: Node, ns: seq<Node>)
    requires n.Element? && IsNormal(n.children) && IsNormal(ns)
    ensures IsNormal([n] + ns)
  {
    var r := [n] + ns;
    forall i | 0 <= i < |r| - 1 ensures !(r[i].Text? && r[i + 1].Text?) {
      if i > 0 { assert !(ns[i - 1].Text? && ns[i - 1 + 1].Text?); }
    }
  }

  lemma NormalTail(ns: seq<Node>)
    requires IsNormal(ns) && ns != []
    ensures IsNormal(ns[1..]) && (ns[0].Text? && |ns| > 1 ==> !ns[1].Text?)
  {
    var t := ns[1..];
    forall i | 0 <= i < |t| - 1 ensures !(t[i].Text? && t[i + 1].Text?) {
      assert !(ns[i + 1].Text? && ns[i + 1 + 1].Text?);
    }
    if |ns| > 1 { assert !(ns[0].Text? && ns[0 + 1].Text?); }
  }

  lemma GlueNormal(s: string, ns: seq<Node>)
    requires IsNormal(ns)
    ensures IsNormal(Glue(s, ns))
  {
    var r := Glue(s, ns);
    if s != "" {
      if ns != [] && ns[0].Text? {
        assert forall i :: 0 < i < |r| ==> r[i] == ns[i];
        assert r[0].Text? && r[0].text != "";
        forall i | 0 <= i < |r| - 1 ensures !(r[i].Text? && r[i + 1].Text?) {
          assert !(ns[i].Text? && ns[i + 1].Text?);
        }
      } else {
        assert forall i :: 0 < i < |r| ==> r[i] == ns[i - 1];
        forall i | 0 <= i < |r| - 1 ensures !(r[i].Text? && r[i + 1].Text?) {
          if i > 0 { assert !(ns[i - 1].Text? && ns[i - 1 + 1].Text?); }
        }
      }
    }
  }

  // ---------------------------------------------------------------- the parser

  /** The longest beginning of s that consists of name characters. */
  function NameLength(s: string): (n: nat)
    ensures n <= |s|
  {
    if s == "" || !NameChar(s[0]) then 0 else 1 + NameLength(s[1..])
  }

  /** Where c first occurs in s; |s| if it does not. */
  function Find(s: string, c: char): (n: nat)
    ensures n <= |s| && c !in s[..n] && (n < |s| ==> s[n] == c)
  {
    if s == "" || s[0] == c then 0 else 1 + Find(s[1..], c)
  }

  /** Attributes up to and including the closing angle bracket. */
  function ParseAttributes(s: string): (r: Option<(seq<Attribute>, string)>)
    ensures r.Some? ==> |r.value.1| < |s|
    decreases |s|
  {
    if s == "" then None
    else if s[0] == '>' then Some(([], s[1..]))
    else
      var n := NameLength(s);
      if n == 0 || !("=\"" <= s[n..]) then None else
      var t := s[n + 2..];
      var k := Find(t, '"');
      if k == |t| then None else
      var u := t[k + 1..];
      var rest := ParseAttributes(if " " <= u then u[1..] else u);
      if rest.None? then None
      else Some(([Attribute(s[..n], Unescape(t[..k]))] + rest.value.0, rest.value.1))
  }

  /** Nodes up to the end of the string or the next closing tag. */
  function ParseNodes(s: string): (r: Option<(seq<Node>, string)>)
    ensures r.Some? ==> |r.value.1| <= |s|
    decreases |s|
  {
    if s == "" || "</" <= s then Some(([], s))
    else if s[0] == '<' then
      var tag := s[1..][..NameLength(s[1..])];
      var body := ParseStart(s, tag);
      if body.None? then None else
      var inner := ParseNodes(body.value.1);
      if inner.None? || !("</" + tag + ">" <= inner.value.1) then None else
      var rest := ParseNodes(inner.value.1[|tag| + 3..]);
      if rest.None? then None
      else Some(([Element(tag, body.value.0, inner.value.0)] + rest.value.0, rest.value.1))
    else
      var k := Find(s, '<');
      var rest := ParseNodes(s[k..]);
      if rest.None? then None
      else Some(([Text(Unescape(s[..k]))] + rest.value.0, rest.value.1))
  }

  /** An opening tag. */
  function ParseStart(s: string, tag: string): (r: Option<(seq<Attribute>, string)>)
    ensures r.Some? ==> |r.value.1| < |s|
  {
    if tag != "" && "<" + tag + " " <= s then ParseAttributes(s[|tag| + 2..]) else None
  }

  // ---------------------------------------------------------------- parsing what was printed

  lemma {:induction false} NameFound(name: string, t: string)
    requires (forall c <- name :: NameChar(c)) && t != "" && !NameChar(t[0])
    ensures NameLength(name + t) == |name| && (name + t)[..|name|] == name && (name + t)[|name|..] == t
  {
    if name == "" {
      assert name + t == t;
    } else {
      assert (name + t)[1..] == name[1..] + t;
      NameFound(name[1..], t);
    }
  }

  lemma {:induction false} FindFound(s: string, c: char, t: string)
    requires c !in s && (t == "" || t[0] == c)
    ensures Find(s + t, c) == |s| && (s + t)[..|s|] == s && (s + t)[|s|..] == t
  {
    if s == "" {
      assert s + t == t;
    } else {
      assert (s + t)[1..] == s[1..] + t;
      FindFound(s[1..], c, t);
    }
  }

  /** One printed attribute is read back, and reading goes on behind it. */
  lemma NotInNames()
    ensures !NameChar('=') && !NameChar('>')
  {
  }

  /** The parts of a printed attribute, for an escaped value v. */
  lemma AttributeParts(name: string, v: string, u: string)
    requires WellNamed(name) && '"' !in v
    ensures var s := name + "=\"" + v + "\"" + u; var t := s[|name| + 2..];
      && NameLength(s) == |name| && s[..|name|] == name && "=\"" <= s[|name|..] && s[0] == name[0]
      && t == v + ("\"" + u) && Find(t, '"') == |v| && t[..|v|] == v && t[|v| + 1..] == u
  {
    hide NameLength, NameChar, Find;
    NotInNames();
    var rest := "=\"" + v + "\"" + u;
    var s, t := name + "=\"" + v + "\"" + u, v + ("\"" + u);
    assert s == name + rest && rest[2..] == t;
    NameFound(name, rest);
    FindFound(v, '"', "\"" + u);
    assert s[|name| + 2..] == t;
    assert t[|v| + 1..] == u;
  }

  lemma AttributeRead(a: Attribute, u: string)
    requires WellNamed(a.name)
    ensures var s := PrintAttribute(a) + u; var t := s[|a.name| + 2..];
      && s != "" && NameLength(s) == |a.name| > 0 && s[..|a.name|] == a.name && "=\"" <= s[|a.name|..] && s[0] != '>'
      && Find(t, '"') < |t| && t[Find(t, '"') + 1..] == u && Unescape(t[..Find(t, '"')]) == a.value
  {
    hide HtmlEscape, Unescape, NameLength, NameChar, Find;
    HtmlEscapeInverts(a.value);
    AttributeParts(a.name, HtmlEscape(a.value), u);
    NotInNames();
    assert a.name[0] in a.name;
  }

  lemma AttributesStep(s: string, n: nat, k: nat, attributes: seq<Attribute>, u: string)
    requires s != "" && s[0] != '>' && n == NameLength(s) > 0 && "=\"" <= s[n..]
    requires k == Find(s[n + 2..], '"') < |s[n + 2..]|
    requires var after := s[n + 2..][k + 1..];
      ParseAttributes(if " " <= after then after[1..] else after) == Some((attributes, u))
    ensures ParseAttributes(s) == Some(([Attribute(s[..n], Unescape(s[n + 2..][..k]))] + attributes, u))
  {
    hide Unescape;
  }

  lemma AttributesEnd(u: string)
    ensures ParseAttributes(">" + u) == Some(([], u))
  {
    assert (">" + u)[1..] == u;
  }

  lemma AttributesReadOn(a: Attribute, rest: seq<Attribute>, u: string)
    requires WellNamed(a.name) && ParseAttributes(Spaced(rest) + (">" + u)) == Some((rest, u))
    ensures ParseAttributes(PrintAttribute(a) + Following(rest, u)) == Some(([a] + rest, u))
  {
    hide PrintAttribute, Unescape, WellNamed, Find, NameLength, ParseAttributes, Spaced, Following;
    var s := PrintAttribute(a) + Following(rest, u);
    AttributeRead(a, Following(rest, u));
    BlankSkipped(rest, u);
    AttributesStep(s, |a.name|, Find(s[|a.name| + 2..], '"'), rest, u);
  }

  lemma {:induction false} AttributesRead(attributes: seq<Attribute>, u: string)
    requires AttributesOk(attributes)
    ensures ParseAttributes(Spaced(attributes) + (">" + u)) == Some((attributes, u))
    decreases |attributes|
  {
    hide PrintAttribute, WellNamed, ParseAttributes;
    if attributes == [] {
      AttributesEnd(u);
      assert Spaced(attributes) + (">" + u) == ">" + u;
    } else {
      var a, rest := attributes[0], attributes[1..];
      assert a in attributes && WellNamed(a.name);
      NamesLeft(attributes);
      AttributesRead(rest, u);
      AttributesReadOn(a, rest, u);
      assert Spaced(attributes) + (">" + u) == PrintAttribute(a) + Following(rest, u);
      assert [a] + rest == attributes;
    }
  }

  /** What stands behind an attribute, if rest are the ones that remain. */
  function Following(rest: seq<Attribute>, u: string): string {
    (if rest == [] then "" else " " + Spaced(rest)) + (">" + u)
  }

  lemma NamesLeft(attributes: seq<Attribute>)
    requires AttributesOk(attributes) && attributes != []
    ensures AttributesOk(attributes[1..])
  {
    assert forall a <- attributes[1..] :: a in attributes;
  }

  lemma BlankSkipped(rest: seq<Attribute>, u: string)
    ensures var after := Following(rest, u);
      (if " " <= after then after[1..] else after) == Spaced(rest) + (">" + u)
  {
    hide Spaced;
    var spaced := Spaced(rest);
    if rest == [] {
      NoneSpaced();
      NoBlank(u);
      assert "" + (">" + u) == ">" + u;
    } else {
      OneBlank(spaced + (">" + u));
      assert (" " + spaced) + (">" + u) == " " + (spaced + (">" + u));
    }
  }

  lemma NoneSpaced()
    ensures Spaced([]) == ""
  {
  }

  lemma NoBlank(u: string)
    ensures !(" " <= ">" + u)
  {
    assert (">" + u)[0] == '>';
  }

  lemma OneBlank(s: string)
    ensures " " <= " " + s && (" " + s)[1..] == s
  {
  }

  /** A string at which a list of nodes ends. */
  predicate Stops(r: string) { r == "" || "</" <= r }

  lemma NothingLeft(r: string)
    requires Stops(r)
    ensures ParseNodes(r) == Some(([], r))
  {
  }

  lemma NotText(u: string)
    requires ParseNodes(u).Some? && (u == "" || u[0] == '<')
    ensures ParseNodes(u).value.0 != [] ==> !ParseNodes(u).value.0[0].Text?
  {
  }

  lemma ParseText(s: string, k: nat, ns: seq<Node>, r: string)
    requires s != "" && s[0] != '<' && k == Find(s, '<') && ParseNodes(s[k..]) == Some((ns, r))
    ensures ParseNodes(s) == Some(([Text(Unescape(s[..k]))] + ns, r))
  {
    hide Unescape, ParseStart;
    assert !("</" <= s);
  }

  /** A printed text in front of something readable joins the text that may already be there. */
  lemma TextRead(s: string, u: string)
    requires ParseNodes(u).Some?
    ensures ParseNodes(Escape(s) + u) == Some((Glue(s, ParseNodes(u).value.0), ParseNodes(u).value.1))
  {
    hide Unescape, ParseNodes, Find, Entity;
    if s == "" {
      assert Escape(s) + u == u;
    } else {
      var e := Escape(s);
      EscapeSafe(s);
      EscapeNonempty(s);
      assert e[0] in e && (e + u)[0] == e[0] && '<' !in e;
      if u == "" || u[0] == '<' {
        FindFound(e, '<', u);
        ParseText(e + u, |e|, ParseNodes(u).value.0, ParseNodes(u).value.1);
        UnescapeAll(s);
        NotText(u);
      } else {
        TextJoins(s, e, u);
      }
    }
  }

  lemma UnescapeAll(s: string)
    ensures Unescape(Escape(s)) == s
  {
    hide Escape;
    UnescapeEscape(s, "");
    assert Escape(s) + "" == Escape(s) && s + "" == s;
  }

  lemma TextJoins(s: string, e: string, u: string)
    requires s != "" && e == Escape(s) && e != "" && '<' !in e && e[0] != '<' && u != "" && u[0] != '<'
    requires ParseNodes(u).Some?
    ensures ParseNodes(e + u) == Some((Glue(s, ParseNodes(u).value.0), ParseNodes(u).value.1))
  {
    hide Unescape, ParseNodes, Escape, Find;
    var k := Find(u, '<');
    assert u == u[..k] + u[k..];
    assert e + u == (e + u[..k]) + u[k..];
    FindFound(e + u[..k], '<', u[k..]);
    UnescapeEscape(s, u[..k]);
    RestParses(u, k);
    var rest := ParseNodes(u[k..]).value;
    ParseText(u, k, rest.0, rest.1);
    ParseText(e + u, |e| + k, rest.0, rest.1);
  }

  lemma RestParses(u: string, k: nat)
    requires u != "" && u[0] != '<' && k == Find(u, '<') && ParseNodes(u).Some?
    ensures ParseNodes(u[k..]).Some?
  {
    hide Unescape, ParseStart;
    assert !("</" <= u);
  }

  lemma ParseElement(s: string, tag: string, attributes: seq<Attribute>, body: string, children: seq<Node>,
                     after: string)
    requires s != "" && !("</" <= s) && s[0] == '<' && tag == s[1..][..NameLength(s[1..])]
    requires ParseStart(s, tag) == Some((attributes, body)) && ParseNodes(body) == Some((children, after))
    requires "</" + tag + ">" <= after && ParseNodes(after[|tag| + 3..]).Some?
    ensures var rest := ParseNodes(after[|tag| + 3..]).value;
      ParseNodes(s) == Some(([Element(tag, attributes, children)] + rest.0, rest.1))
  {
    hide Unescape, ParseStart;
  }

  lemma StartRead(tag: string, attributes: seq<Attribute>, body: string)
    requires WellNamed(tag) && AttributesOk(attributes)
    ensures var s := "<" + tag + " " + JoinAttributes(attributes) + ">" + body;
      && ParseStart(s, tag) == Some((attributes, body)) && s[0] == '<' && !("</" <= s)
      && s[1..][..NameLength(s[1..])] == tag
  {
    hide Spaced, JoinAttributes, NameLength, ParseAttributes, AttributesOk;
    JoinIsSpaced(attributes);
    var text := Spaced(attributes);
    var s := "<" + tag + " " + text + ">" + body;
    assert s[1..] == tag + (" " + text + ">" + body);
    NameFound(tag, " " + text + ">" + body);
    assert s == ("<" + tag + " ") + (text + (">" + body));
    assert s[|tag| + 2..] == text + (">" + body);
    AttributesRead(attributes, body);
    assert NameChar(tag[0]) && s[1] == tag[0];
  }

  /** A printed element in front of something readable. */
  lemma ElementRead(n: Node, children: seq<Node>, u: string)
    requires n.Element? && WellNamed(n.tag) && AttributesOk(n.attributes) && ParseNodes(u).Some?
    requires ParseNodes(ToHtmls(n.children) + ("</" + n.tag + ">" + u)) == Some((children, "</" + n.tag + ">" + u))
    ensures ParseNodes(ToHtml(n) + u) ==
      Some(([Element(n.tag, n.attributes, children)] + ParseNodes(u).value.0, ParseNodes(u).value.1))
  {
    hide ToHtmls, JoinAttributes, ParseNodes, ParseStart, WellNamed, AttributesOk, NameLength;
    var tag, close := n.tag, "</" + n.tag + ">";
    var body := ToHtmls(n.children) + (close + u);
    var start := "<" + tag + " " + JoinAttributes(n.attributes) + ">";
    assert ToHtml(n) + u == start + body;
    StartRead(tag, n.attributes, body);
    assert (close + u)[|tag| + 3..] == u;
    ParseElement(start + body, tag, n.attributes, body, children, close + u);
  }

  /** Reading what was printed gives the normal form back, up to any place where a list of nodes can end. */
  lemma {:induction false} Reads(ns: seq<Node>, r: string)
    requires WellFormed(ns) && Stops(r)
    ensures ParseNodes(ToHtmls(ns) + r) == Some((Normal(ns), r))
    decreases ns
  {
    hide ParseNodes, HtmlEscape, Escape, JoinAttributes, WellNamed, AttributesOk, ToHtml;
    if ns == [] {
      assert ToHtmls(ns) + r == r;
      NothingLeft(r);
    } else {
      var n, u := ns[0], ToHtmls(ns[1..]) + r;
      assert n in ns && forall m <- ns[1..] :: m in ns;
      Reads(ns[1..], r);
      assert ToHtmls(ns) + r == ToHtml(n) + u;
      if n.Text? {
        TextPrints(n);
        TextRead(n.text, u);
      } else {
        var close := "</" + n.tag + ">" + u;
        assert close == "</" + (n.tag + ">" + u);
        Reads(n.children, close);
        ElementRead(n, Normal(n.children), u);
      }
    }
  }

  lemma TextPrints(n: Node)
    requires n.Text?
    ensures ToHtml(n) == Escape(n.text)
  {
    EscapeIsPerCharacter(n.text);
  }

  lemma HeadPrints(n: Node, ns: seq<Node>)
    ensures ToHtmls([n] + ns) == ToHtml(n) + ToHtmls(ns)
  {
    hide ToHtml;
    assert ([n] + ns)[1..] == ns;
  }

  lemma {:induction false} GluePrints(s: string, ns: seq<Node>)
    ensures ToHtmls(Glue(s, ns)) == Escape(s) + ToHtmls(ns)
  {
    hide Entity, ToHtml, ToHtmls;
    if s == "" {
      assert Escape(s) + ToHtmls(ns) == ToHtmls(ns);
    } else if ns != [] && ns[0].Text? {
      var t := ns[0].text;
      EscapeConcat(s, t);
      TextPrints(Text(s + t));
      TextPrints(ns[0]);
      assert ns == [ns[0]] + ns[1..];
      HeadPrints(Text(s + t), ns[1..]);
      HeadPrints(ns[0], ns[1..]);
      assert Escape(s) + Escape(t) + ToHtmls(ns[1..]) == Escape(s) + (Escape(t) + ToHtmls(ns[1..]));
    } else {
      TextPrints(Text(s));
      HeadPrints(Text(s), ns);
    }
  }

  /** Normalizing does not change what is printed. */
  lemma {:induction false} NormalPrints(ns: seq<Node>)
    ensures ToHtmls(Normal(ns)) == ToHtmls(ns)
    decreases ns
  {
    if ns != [] {
      NormalPrints(ns[1..]);
      match ns[0]
      case Text(s) =>
        GluePrints(s, Normal(ns[1..]));
        EscapeIsPerCharacter(s);
      case Element(tag, attributes, children) =>
        NormalPrints(children);
        var head := Element(tag, attributes, Normal(children));
        assert ([head] + Normal(ns[1..]))[1..] == Normal(ns[1..]);
    }
  }

  /** Two lists of well-formed trees print alike exactly when they differ only in how their texts are cut up. */
  lemma PrintsAlike(a: seq<Node>, b: seq<Node>)
    requires WellFormed(a) && WellFormed(b)
    ensures ToHtmls(a) == ToHtmls(b) <==> Normal(a) == Normal(b)
  {
    Reads(a, "");
    Reads(b, "");
    assert ToHtmls(a) + "" == ToHtmls(a) && ToHtmls(b) + "" == ToHtmls(b);
    NormalPrints(a);
    NormalPrints(b);
  }

  /** toHtml tells well-formed trees in normal form apart. */
  lemma ToHtmlInjective(m: Node, n: Node)
    requires WellFormed([m]) && WellFormed([n]) && IsNormal([m]) && IsNormal([n])
    requires ToHtml(m) == ToHtml(n)
    ensures m == n
  {
    HeadPrints(m, []);
    HeadPrints(n, []);
    assert [m] + [] == [m] && [n] + [] == [n];
    PrintsAlike([m], [n]);
    NormalFixes([m]);
    NormalFixes([n]);
    assert [m][0] == [n][0];
  }

  /** Names have to be well formed: attribute names are printed as they are, blanks and quotes included. */
  lemma NamesAreNotEscaped()
    ensures var m := Element("a", [Attribute("x=\"\" y", "")], []);
      var n := Element("a", [Attribute("x", ""), Attribute("y", "")], []);
      m != n && ToHtml(m) == ToHtml(n)
  {
    hide Trim;
    var p, q := [Attribute("x=\"\" y", "")], [Attribute("x", ""), Attribute("y", "")];
    assert q[1..] == [Attribute("y", "")] && q[1..][1..] == [] && p[1..] == [];
    assert HtmlEscape("") == "";
    assert PrintAttribute(p[0]) == "x=\"\" y=\"\"";
    assert PrintAttribute(q[0]) + " " + PrintAttribute(q[1]) == "x=\"\" y=\"\"";
    ReduceIsSpaced("", p);
    ReduceIsSpaced("", q);
    assert Spaced(q[1..]) == PrintAttribute(q[1]);
    assert Spaced(q) == PrintAttribute(q[0]) + (" " + Spaced(q[1..])) == Spaced(p);
    assert JoinAttributes(p) == JoinAttributes(q);
    assert |p| != |q|;
  }
}
