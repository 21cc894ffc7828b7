/**
 * String rewriting from js/ocrObjects.js: `replaceLigatures` and
 * `escapeXml`, each a chain of global single-character replacements
 * (`text.replace(/c/g, rep)`).
 */
module XmlText {

  /** `s.replace(/c/g, rep)`: every occurrence of character c replaced by rep. */
  function ReplaceChar(s: string, c: char, rep: string): string {
    if s == [] then [] else (if s[0] == c then rep else [s[0]]) + ReplaceChar(s[1..], c, rep)
  }

  /** Replacing works piece by piece. */
  lemma {:induction false} ReplaceAppend(a: string, b: string, c: char, rep: string)
    ensures ReplaceChar(a + b, c, rep) == ReplaceChar(a, c, rep) + ReplaceChar(b, c, rep)
  {
    if a != [] {
      assert (a + b)[0] == a[0] && (a + b)[1..] == a[1..] + b;
      ReplaceAppend(a[1..], b, c, rep);
    } else {
      assert a + b == b;
    }
  }

  /** The replaced character is gone, unless the replacement brings it back. */
  lemma {:induction false} ReplaceRemoves(s: string, c: char, rep: string)
    requires c !in rep
    ensures c !in ReplaceChar(s, c, rep)
  {
    if s != [] {
      ReplaceRemoves(s[1..], c, rep);
    }
  }

  /** A character absent from the text and from the replacement stays absent. */
  lemma {:induction false} ReplaceKeepsAbsent(s: string, c: char, rep: string, d: char)
    requires d !in s && d !in rep
    ensures d !in ReplaceChar(s, c, rep)
  {
    if s != [] {
      ReplaceKeepsAbsent(s[1..], c, rep, d);
    }
  }

  /** Text without the character is returned unchanged. */
  lemma {:induction false} ReplaceAbsent(s: string, c: char, rep: string)
    requires c !in s
    ensures ReplaceChar(s, c, rep) == s
  {
    if s != [] {
      ReplaceAbsent(s[1..], c, rep);
      assert s == [s[0]] + s[1..];
    }
  }

  /** A one-character text becomes the replacement when it matches, else stays. */
  lemma ReplaceSingle(d: char, c: char, rep: string)
    ensures ReplaceChar([d], c, rep) == if d == c then rep else [d]
  {
    assert [d][1..] == [];
  }

  // ---------------------------------------------------------------------------
  // Chains of replacements

  /**
   * `s.replace(/c1/g, r1).replace(/c2/g, r2)...`: the replacements applied
   * one after the other, in the order of `pairs`.
   */
  function ReplaceEach(s: string, pairs: seq<(char, string)>): string
    decreases |pairs|
  {
    if pairs == [] then s else ReplaceEach(ReplaceChar(s, pairs[0].0, pairs[0].1), pairs[1..])
  }

  /** The replacement a single character gets: that of the first pair matching it, else itself. */
  function FirstMatch(c: char, pairs: seq<(char, string)>): string
    decreases |pairs|
  {
    if pairs == [] then [c] else if pairs[0].0 == c then pairs[0].1 else FirstMatch(c, pairs[1..])
  }

  /** No character replaced later in the chain occurs in an earlier replacement. */
  predicate NoRescan(pairs: seq<(char, string)>) {
    forall i, j :: 0 <= i < j < |pairs| ==> pairs[j].0 !in pairs[i].1
  }

  /** Text holding none of the replaced characters passes through unchanged. */
  lemma {:induction false} ReplaceEachAbsent(s: string, pairs: seq<(char, string)>)
    ensures (forall k :: 0 <= k < |pairs| ==> pairs[k].0 !in s) ==> ReplaceEach(s, pairs) == s
    decreases |pairs|
  {
    if pairs != [] && forall k :: 0 <= k < |pairs| ==> pairs[k].0 !in s {
      ReplaceAbsent(s, pairs[0].0, pairs[0].1);
      assert forall k :: 0 <= k < |pairs[1..]| ==> pairs[1..][k] == pairs[k + 1];
      ReplaceEachAbsent(s, pairs[1..]);
    }
  }

  /**
   * Without rescanning, the chain replaces a single character by its first
   * match and nothing else touches the result.
   */
  lemma {:induction false} ReplaceEachOne(c: char, pairs: seq<(char, string)>)
    requires NoRescan(pairs)
    ensures ReplaceEach([c], pairs) == FirstMatch(c, pairs)
    decreases |pairs|
  {
    if pairs != [] {
      ReplaceSingle(c, pairs[0].0, pairs[0].1);
      if pairs[0].0 == c {
        assert forall k :: 0 <= k < |pairs[1..]| ==> pairs[1..][k].0 == pairs[k + 1].0;
        ReplaceEachAbsent(pairs[0].1, pairs[1..]);
      } else {
        assert NoRescan(pairs[1..]) by {
          forall i, j | 0 <= i < j < |pairs[1..]| ensures pairs[1..][j].0 !in pairs[1..][i].1 {
            assert pairs[1..][j] == pairs[j + 1] && pairs[1..][i] == pairs[i + 1];
          }
        }
        ReplaceEachOne(c, pairs[1..]);
      }
    }
  }

  /** Replacing works piece by piece along the whole chain. */
  lemma {:induction false} ReplaceEachAppend(a: string, b: string, pairs: seq<(char, string)>)
    ensures ReplaceEach(a + b, pairs) == ReplaceEach(a, pairs) + ReplaceEach(b, pairs)
    decreases |pairs|
  {
    if pairs != [] {
      ReplaceAppend(a, b, pairs[0].0, pairs[0].1);
      ReplaceEachAppend(ReplaceChar(a, pairs[0].0, pairs[0].1), ReplaceChar(b, pairs[0].0, pairs[0].1), pairs[1..]);
    }
  }

  /** A character in no replacement stays absent along the whole chain. */
  lemma {:induction false} ReplaceEachKeepsAbsent(s: string, pairs: seq<(char, string)>, d: char)
    requires d !in s
    requires forall i :: 0 <= i < |pairs| ==> d !in pairs[i].1
    ensures d !in ReplaceEach(s, pairs)
    decreases |pairs|
  {
    if pairs != [] {
      ReplaceKeepsAbsent(s, pairs[0].0, pairs[0].1, d);
      assert forall i :: 0 <= i < |pairs[1..]| ==> pairs[1..][i] == pairs[i + 1];
      ReplaceEachKeepsAbsent(ReplaceChar(s, pairs[0].0, pairs[0].1), pairs[1..], d);
    }
  }

  /**
   * A character that some step replaces, and that no replacement contains,
   * is absent from the output.
   */
  lemma {:induction false} ReplaceEachRemoves(s: string, pairs: seq<(char, string)>, d: char)
    requires forall i :: 0 <= i < |pairs| ==> d !in pairs[i].1
    requires exists k :: 0 <= k < |pairs| && pairs[k].0 == d
    ensures d !in ReplaceEach(s, pairs)
    decreases |pairs|
  {
    var s1 := ReplaceChar(s, pairs[0].0, pairs[0].1);
    assert forall i :: 0 <= i < |pairs[1..]| ==> pairs[1..][i] == pairs[i + 1];
    if pairs[0].0 == d {
      ReplaceRemoves(s, d, pairs[0].1);
      ReplaceEachKeepsAbsent(s1, pairs[1..], d);
    } else {
      var k :| 0 <= k < |pairs| && pairs[k].0 == d;
      assert pairs[1..][k - 1].0 == d;
      ReplaceEachRemoves(s1, pairs[1..], d);
    }
  }

  /** When no replacement contains any replaced character, none is left in the output. */
  lemma ReplaceEachRemovesAll(s: string, pairs: seq<(char, string)>)
    requires forall i, j :: 0 <= i < |pairs| && 0 <= j < |pairs| ==> pairs[j].0 !in pairs[i].1
    ensures forall k :: 0 <= k < |pairs| ==> pairs[k].0 !in ReplaceEach(s, pairs)
  {
    forall k | 0 <= k < |pairs| ensures pairs[k].0 !in ReplaceEach(s, pairs) {
      ReplaceEachRemoves(s, pairs, pairs[k].0);
    }
  }

  // ---------------------------------------------------------------------------
  // Ligatures

  /** The pairs of `replaceLigatures`, in its order: fl, fi, ff, ffi, ffl. */
  const Ligatures: seq<(char, string)> :=
    [('\U{FB02}', "fl"), ('\U{FB01}', "fi"), ('\U{FB00}', "ff"), ('\U{FB03}', "ffi"), ('\U{FB04}', "ffl")]

  /**
   * `replaceLigatures`: the five Latin ligatures spelled out in ASCII
   * letters. None is left afterwards, and text without them is returned
   * unchanged.
   */
  function ReplaceLigatures(text: string): (r: string)
    ensures LigatureFree(r)
    ensures LigatureFree(text) ==> r == text
  {
    ReplaceEachRemovesAll(text, Ligatures);
    ReplaceEachAbsent(text, Ligatures);
    ReplaceEach(text, Ligatures)
  }

  predicate LigatureFree(s: string) {
    forall k :: 0 <= k < |Ligatures| ==> Ligatures[k].0 !in s
  }

  // ---------------------------------------------------------------------------
  // XML escaping

  /** The pairs of `escapeXml`, in its order: `&` first, then `"`, `'`, `<` and `>`. */
  const XmlEntities: seq<(char, string)> :=
    [('&', "&amp;"), ('"', "&quot;"), ('\'', "&apos;"), ('<', "&lt;"), ('>', "&gt;")]

  /**
   * `escapeXml`. Its output holds no raw `<`, `>`, `"` or `'`, every `&` in
   * it starts one of `&amp; &quot; &apos; &lt; &gt;`, and an XML reader gets
   * the original text back.
   */
  function EscapeXml(s: string): (r: string)
    ensures NoRawSpecials(r)
    ensures AmpersandsStartEntities(r)
    ensures UnescapeXml(r) == s
  {
    EntityChainIsPerChar(s);
    EscapedSafe(s);
    EscapedRoundTrip(s);
    ReplaceEach(s, XmlEntities)
  }

  /** The escape of one character. */
  function EscapeChar(c: char): string {
    if c == '&' then "&amp;"
    else if c == '"' then "&quot;"
    else if c == '\'' then "&apos;"
    else if c == '<' then "&lt;"
    else if c == '>' then "&gt;"
    else [c]
  }

  /** Escaping one character at a time, left to right. */
  function Escaped(s: string): string {
    if s == [] then [] else EscapeChar(s[0]) + Escaped(s[1..])
  }

  /** Because `&` is replaced first, no later replacement rescans an entity. */
  lemma XmlEntitiesNoRescan()
    ensures NoRescan(XmlEntities)
  {
  }

  lemma EscapeCharIsFirstMatch(c: char)
    ensures FirstMatch(c, XmlEntities) == EscapeChar(c)
  {
    var e := XmlEntities;
    assert FirstMatch(c, e) == if c == '&' then "&amp;" else FirstMatch(c, e[1..]);
    assert FirstMatch(c, e[1..]) == if c == '"' then "&quot;" else FirstMatch(c, e[2..]);
    assert FirstMatch(c, e[2..]) == if c == '\'' then "&apos;" else FirstMatch(c, e[3..]);
    assert FirstMatch(c, e[3..]) == if c == '<' then "&lt;" else FirstMatch(c, e[4..]);
    assert FirstMatch(c, e[4..]) == if c == '>' then "&gt;" else FirstMatch(c, e[5..]);
  }

  /**
   * The chain of replacements in `escapeXml` escapes each character on its
   * own: because `&` is replaced first, no entity is escaped twice.
   */
  lemma {:induction false} EntityChainIsPerChar(s: string)
    ensures ReplaceEach(s, XmlEntities) == Escaped(s)
  {
    if s != [] {
      assert s == [s[0]] + s[1..];
      ReplaceEachAppend([s[0]], s[1..], XmlEntities);
      XmlEntitiesNoRescan();
      ReplaceEachOne(s[0], XmlEntities);
      EscapeCharIsFirstMatch(s[0]);
      EntityChainIsPerChar(s[1..]);
    }
  }

  /** `t` begins with one of the five predefined XML entities. */
  predicate StartsEntity(t: string) {
    "&amp;" <= t || "&quot;" <= t || "&apos;" <= t || "&lt;" <= t || "&gt;" <= t
  }

  /** No raw `<`, `>`, `"` or `'`. */
  predicate NoRawSpecials(t: string) {
    '<' !in t && '>' !in t && '"' !in t && '\'' !in t
  }

  /** Every `&` starts an entity. */
  predicate AmpersandsStartEntities(t: string) {
    forall i :: 0 <= i < |t| && t[i] == '&' ==> StartsEntity(t[i..])
  }

  /** The escape of one character followed by well-formed text is well formed. */
  lemma EscapeCharThenEntities(c: char, rest: string)
    requires AmpersandsStartEntities(rest)
    ensures AmpersandsStartEntities(EscapeChar(c) + rest)
  {
    var e := EscapeChar(c);
    var t := e + rest;
    assert forall i :: 1 <= i < |e| ==> e[i] != '&';
    forall i | 0 <= i < |t| && t[i] == '&'
      ensures StartsEntity(t[i..])
    {
      if i >= |e| {
        assert t[i..] == rest[i - |e|..];
      } else {
        assert i == 0 && t[i..] == t && e <= t;
      }
    }
  }

  /** No escape of a single character holds a raw special character. */
  lemma EscapeCharNoRaw(c: char)
    ensures NoRawSpecials(EscapeChar(c))
  {
  }

  lemma {:induction false} EscapedSafe(s: string)
    ensures NoRawSpecials(Escaped(s))
    ensures AmpersandsStartEntities(Escaped(s))
  {
    if s != [] {
      var head, tail := EscapeChar(s[0]), Escaped(s[1..]);
      assert Escaped(s) == head + tail;
      EscapedSafe(s[1..]);
      EscapeCharNoRaw(s[0]);
      assert NoRawSpecials(head + tail) by {
        assert forall x :: x in head + tail ==> x in head || x in tail;
      }
      EscapeCharThenEntities(s[0], tail);
    }
  }

  /** Decoding of the five predefined XML entities, as an XML reader does it. */
  function UnescapeXml(t: string): string
    decreases |t|
  {
    if t == [] then []
    else if "&amp;" <= t then "&" + UnescapeXml(t[5..])
    else if "&quot;" <= t then "\"" + UnescapeXml(t[6..])
    else if "&apos;" <= t then "'" + UnescapeXml(t[6..])
    else if "&lt;" <= t then "<" + UnescapeXml(t[4..])
    else if "&gt;" <= t then ">" + UnescapeXml(t[4..])
    else [t[0]] + UnescapeXml(t[1..])
  }

  /** A text whose j-th character differs from p's does not start with p. */
  lemma NotPrefixAt(p: string, t: string, j: nat)
    requires j < |p| && j < |t| && p[j] != t[j]
    ensures !(p <= t)
  {
  }

  lemma UnescapeEscapeChar(c: char, rest: string)
    ensures UnescapeXml(EscapeChar(c) + rest) == [c] + UnescapeXml(rest)
  {
    var t := EscapeChar(c) + rest;
    if c == '&' {
      assert "&amp;" <= t && t[5..] == rest;
    } else if c == '"' {
      NotPrefixAt("&amp;", t, 1);
      assert "&quot;" <= t && t[6..] == rest;
    } else if c == '\'' {
      NotPrefixAt("&amp;", t, 2);
      NotPrefixAt("&quot;", t, 1);
      assert "&apos;" <= t && t[6..] == rest;
    } else if c == '<' {
      NotPrefixAt("&amp;", t, 1);
      NotPrefixAt("&quot;", t, 1);
      NotPrefixAt("&apos;", t, 1);
      assert "&lt;" <= t && t[4..] == rest;
    } else if c == '>' {
      NotPrefixAt("&amp;", t, 1);
      NotPrefixAt("&quot;", t, 1);
      NotPrefixAt("&apos;", t, 1);
      NotPrefixAt("&lt;", t, 1);
      assert "&gt;" <= t && t[4..] == rest;
    } else {
      NotPrefixAt("&amp;", t, 0);
      NotPrefixAt("&quot;", t, 0);
      NotPrefixAt("&apos;", t, 0);
      NotPrefixAt("&lt;", t, 0);
      NotPrefixAt("&gt;", t, 0);
      assert t[0] == c && t[1..] == rest;
    }
  }

  /** Decoding per-character escaped text recovers the text. */
  lemma {:induction false} EscapedRoundTrip(s: string)
    ensures UnescapeXml(Escaped(s)) == s
  {
    if s != [] {
      UnescapeEscapeChar(s[0], Escaped(s[1..]));
      EscapedRoundTrip(s[1..]);
    }
  }
}
