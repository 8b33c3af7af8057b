/** The text extractor's string pipeline (yjs_utils.py, extract_text): every
    match of `<[^>]+>` becomes one space, every run of whitespace becomes one
    space, and the result is stripped. */
module TextExtract {
  import opened Wrappers
  import opened Strings
  import opened Xml

  // ---------------------------------------------------------------------------
  // Tags

  /** `t` is exactly one match of `<[^>]+>`: `<`, one or more characters other
      than `>`, then `>`. */
  predicate IsTag(t: string) {
    |t| >= 3 && t[0] == '<' && t[|t| - 1] == '>' && '>' !in t[1..|t| - 1]
  }

  /** No contiguous piece of `s` is a tag. */
  predicate TagFree(s: string) {
    forall i, j :: 0 <= i <= j <= |s| ==> !IsTag(s[i..j])
  }

  /** A local form of `TagFree`: every `<` is directly followed by `>`, or no
      `>` comes after it at all. */
  predicate NoTagStarts(s: string) {
    forall i :: 0 <= i < |s| && s[i] == '<' ==> (i + 1 < |s| && s[i + 1] == '>') || '>' !in s[i + 1..]
  }

  /** Index of the first `c` in `s`. */
  function FirstIndex(s: string, c: char): (r: Option<nat>)
    ensures r.Some? ==> r.value < |s| && s[r.value] == c && c !in s[..r.value]
    ensures r.None? ==> c !in s
  {
    if s == [] then None
    else if s[0] == c then Some(0)
    else match FirstIndex(s[1..], c)
      case Some(k) =>
        assert s[..k + 1] == [s[0]] + s[1..][..k];
        Some(k + 1)
      case None => None
  }

  lemma {:induction false} FirstIndexAt(s: string, c: char, k: nat)
    requires k < |s| && s[k] == c && c !in s[..k]
    ensures FirstIndex(s, c) == Some(k)
  {
    if k > 0 {
      assert s[0] == s[..k][0];
      assert s[1..][..k - 1] == s[..k][1..];
      FirstIndexAt(s[1..], c, k - 1);
    }
  }

  /** Length of the match of `<[^>]+>` that begins at the front of `s`, if one
      does: the regular expression's greedy `[^>]+` runs to the first `>`. */
  function TagLength(s: string): (r: Option<nat>)
    ensures r.Some? ==> 3 <= r.value <= |s| && IsTag(s[..r.value])
    ensures r.None? && s != [] && s[0] == '<' ==> (|s| >= 2 && s[1] == '>') || '>' !in s[1..]
  {
    if s != [] && s[0] == '<' then
      match FirstIndex(s[1..], '>')
      case Some(k) =>
        if k >= 1 then
          assert s[..k + 2][1..k + 1] == s[1..][..k];
          Some(k + 2)
        else None
      case None => None
    else None
  }

  /** `re.sub(r"<[^>]+>", " ", s)`: matches are taken left to right without
      overlap and each one becomes a single space; other characters are kept. */
  function StripTags(s: string): (r: string)
    ensures forall c :: c in r ==> c == ' ' || c in s
    ensures s != [] && s[0] != '<' ==> r != [] && r[0] == s[0]
    decreases |s|
  {
    if s == [] then []
    else match TagLength(s)
      case Some(n) => " " + StripTags(s[n..])
      case None => [s[0]] + StripTags(s[1..])
  }

  lemma NoTagStartsCons(c: char, r: string)
    requires NoTagStarts(r)
    requires c == '<' ==> (r != [] && r[0] == '>') || '>' !in r
    ensures NoTagStarts([c] + r)
  {
    var s := [c] + r;
    assert s[1..] == r;
    forall i | 0 <= i < |s| && s[i] == '<'
      ensures (i + 1 < |s| && s[i + 1] == '>') || '>' !in s[i + 1..]
    {
      if i > 0 {
        assert s[i] == r[i - 1];
        assert s[i + 1..] == r[i..];
      }
    }
  }

  lemma NoTagStartsSuffix(s: string, k: nat)
    requires NoTagStarts(s) && k <= |s|
    ensures NoTagStarts(s[k..])
  {
    var t := s[k..];
    forall i | 0 <= i < |t| && t[i] == '<'
      ensures (i + 1 < |t| && t[i + 1] == '>') || '>' !in t[i + 1..]
    {
      assert s[k + i] == '<';
      assert t[i + 1..] == s[k + i + 1..];
    }
  }

  /** No output of the tag substitution starts a tag. */
  lemma {:induction false} StripTagsNoTagStarts(s: string)
    ensures NoTagStarts(StripTags(s))
    decreases |s|
  {
    if s != [] {
      match TagLength(s)
      case Some(n) =>
        StripTagsNoTagStarts(s[n..]);
        NoTagStartsCons(' ', StripTags(s[n..]));
      case None =>
        StripTagsNoTagStarts(s[1..]);
        NoTagStartsCons(s[0], StripTags(s[1..]));
    }
  }

  lemma NoTagStartsTagFree(s: string)
    requires NoTagStarts(s)
    ensures TagFree(s)
  {
    forall i, j | 0 <= i <= j <= |s| ensures !IsTag(s[i..j]) {
      var t := s[i..j];
      if |t| >= 3 && t[0] == '<' {
        assert s[i] == '<';
        if s[i + 1] == '>' {
          assert t[1..|t| - 1][0] == '>';
        } else {
          assert s[i + 1..][j - 2 - i] == s[j - 1] == t[|t| - 1];
        }
      }
    }
  }

  lemma TagFreeInfix(s: string, a: nat, b: nat)
    requires TagFree(s) && a <= b <= |s|
    ensures TagFree(s[a..b])
  {
    var t := s[a..b];
    forall i, j | 0 <= i <= j <= |t| ensures !IsTag(t[i..j]) {
      assert forall k :: 0 <= k < j - i ==> t[i..j][k] == s[a + i..a + j][k];
      assert t[i..j] == s[a + i..a + j];
      assert !IsTag(s[a + i..a + j]);
    }
  }

  // ---------------------------------------------------------------------------
  // Whitespace

  /** Every whitespace character is a plain space and no two are adjacent. */
  predicate Collapsed(s: string) {
    forall i :: 0 <= i < |s| && IsSpace(s[i]) ==> s[i] == ' ' && (i + 1 < |s| ==> !IsSpace(s[i + 1]))
  }

  /** The form the extractor promises: single spaces between words and none
      at either end. */
  predicate Normalized(s: string) {
    Collapsed(s) && Trimmed(s)
  }

  /** `re.sub(r"\s+", " ", s)`: every maximal run of whitespace becomes one
      space; other characters are kept in order. */
  function Collapse(s: string): (r: string)
    ensures s != [] && !IsSpace(s[0]) ==> r != [] && r[0] == s[0]
    ensures s != [] && IsSpace(s[0]) ==> r != [] && r[0] == ' '
    ensures s == [] ==> r == []
    decreases |s|
  {
    if s == [] then []
    else if IsSpace(s[0]) then " " + Collapse(LStrip(s))
    else [s[0]] + Collapse(s[1..])
  }

  /** The collapsed string has no whitespace other than single spaces. */
  lemma {:induction false} CollapseIsCollapsed(s: string)
    ensures Collapsed(Collapse(s))
    decreases |s|
  {
    if s != [] {
      var head := if IsSpace(s[0]) then ' ' else s[0];
      var tail := if IsSpace(s[0]) then LStrip(s) else s[1..];
      CollapseIsCollapsed(tail);
      var rest := Collapse(tail);
      var r := [head] + rest;
      assert Collapse(s) == r;
      forall i | 0 <= i < |r| && IsSpace(r[i])
        ensures r[i] == ' ' && (i + 1 < |r| ==> !IsSpace(r[i + 1]))
      {
        if i > 0 {
          assert r[i] == rest[i - 1];
        }
      }
    }
  }

  /** Every character of the collapsed string is a space or comes from the
      input. */
  lemma {:induction false} CollapseChars(s: string)
    ensures forall c :: c in Collapse(s) ==> c == ' ' || c in s
    decreases |s|
  {
    if s != [] {
      var head := if IsSpace(s[0]) then ' ' else s[0];
      var tail := if IsSpace(s[0]) then LStrip(s) else s[1..];
      CollapseChars(tail);
      var rest := Collapse(tail);
      assert Collapse(s) == [head] + rest;
      forall c | c in [head] + rest ensures c == ' ' || c in s {
        if c != head {
          assert c in rest;
        }
      }
    }
  }

  /** `re.sub(r"\s+", " ", s).strip()`. */
  function Normalize(s: string): (r: string)
    ensures Trimmed(r)
  {
    Strip(Collapse(s))
  }

  lemma CollapsedInfix(s: string, a: nat, b: nat)
    requires Collapsed(s) && a <= b <= |s|
    ensures Collapsed(s[a..b])
  {
    var t := s[a..b];
    forall i | 0 <= i < |t| && IsSpace(t[i])
      ensures t[i] == ' ' && (i + 1 < |t| ==> !IsSpace(t[i + 1]))
    {
      assert t[i] == s[a + i];
      if i + 1 < |t| { assert t[i + 1] == s[a + i + 1]; }
    }
  }

  /** The normalised text has no whitespace at either end and every
      whitespace run in it is exactly one space. */
  lemma NormalizeIsNormalized(s: string)
    ensures Normalized(Normalize(s))
  {
    var c := Collapse(s);
    CollapseIsCollapsed(s);
    var p, q := StripParts(c);
    CollapsedMiddle(p, Strip(c), q);
  }

  lemma CollapsedMiddle(p: string, x: string, q: string)
    requires Collapsed(p + x + q)
    ensures Collapsed(x)
  {
    var s := p + x + q;
    CollapsedInfix(s, |p|, |p| + |x|);
    assert s[|p|..|p| + |x|] == x;
  }

  lemma {:induction false} CollapseNoTagStarts(s: string)
    requires NoTagStarts(s)
    ensures NoTagStarts(Collapse(s))
    decreases |s|
  {
    if s != [] {
      if IsSpace(s[0]) {
        var l := LStrip(s);
        NoTagStartsSuffix(s, |s| - |l|);
        CollapseNoTagStarts(l);
        NoTagStartsCons(' ', Collapse(l));
      } else {
        NoTagStartsSuffix(s, 1);
        CollapseNoTagStarts(s[1..]);
        CollapseChars(s[1..]);
        if s[0] == '<' {
          if '>' in Collapse(s[1..]) {
            assert '>' in s[1..];
            assert s[1] == '>';
          }
        }
        NoTagStartsCons(s[0], Collapse(s[1..]));
      }
    }
  }

  /** A non-empty run of whitespace collapses to one space. */
  lemma CollapseAllSpace(w: string)
    requires w != [] && AllSpace(w)
    ensures Collapse(w) == " "
  {
    LStripAfterSpaces(w, []);
    assert w + [] == w;
  }

  lemma LStripConcat(a: string, b: string)
    requires LStrip(a) != []
    ensures LStrip(a + b) == LStrip(a) + b
  {
    var l := LStrip(a);
    SplitConcat(a, l, b);
    LStripAfterSpaces(a[..|a| - |l|], l + b);
  }

  lemma SplitConcat(a: string, l: string, b: string)
    requires |l| <= |a| && l == a[|a| - |l|..]
    ensures a + b == a[..|a| - |l|] + (l + b)
  {
    assert a == a[..|a| - |l|] + l;
  }

  lemma CollapseWord(c: char, s: string)
    requires !IsSpace(c)
    ensures Collapse([c] + s) == [c] + Collapse(s)
  {
    assert ([c] + s)[1..] == s;
  }

  lemma CollapseSpace(s: string)
    requires s != [] && IsSpace(s[0])
    ensures Collapse(s) == " " + Collapse(LStrip(s))
  {
  }

  lemma CollapseConcatWord(a: string, b: string)
    requires a != [] && !IsSpace(a[0])
    requires Collapse(a[1..] + b) == Collapse(a[1..]) + Collapse(b)
    ensures Collapse(a + b) == Collapse(a) + Collapse(b)
  {
    var t := a[1..];
    assert a == [a[0]] + t;
    Assoc([a[0]], t, b);
    CollapseWord(a[0], t + b);
    CollapseWord(a[0], t);
    Assoc([a[0]], Collapse(t), Collapse(b));
  }

  lemma CollapseConcatSpaces(a: string, b: string)
    requires a != [] && AllSpace(a) && (b == [] || !IsSpace(b[0]))
    ensures Collapse(a + b) == Collapse(a) + Collapse(b)
  {
    CollapseAllSpace(a);
    CollapseSpace(a + b);
    LStripAfterSpaces(a, b);
  }

  lemma CollapseConcatSpace(a: string, b: string)
    requires a != [] && IsSpace(a[0]) && LStrip(a) != []
    requires Collapse(LStrip(a) + b) == Collapse(LStrip(a)) + Collapse(b)
    ensures Collapse(a + b) == Collapse(a) + Collapse(b)
  {
    var l := LStrip(a);
    CollapseSpace(a);
    CollapseSpace(a + b);
    LStripConcat(a, b);
    Assoc(" ", Collapse(l), Collapse(b));
  }

  /** Collapsing distributes over a concatenation whose seam is not inside a
      whitespace run. */
  lemma {:induction false} CollapseConcat(a: string, b: string)
    requires a == [] || b == [] || !IsSpace(a[|a| - 1]) || !IsSpace(b[0])
    ensures Collapse(a + b) == Collapse(a) + Collapse(b)
    decreases |a|
  {
    if a == [] {
      assert a + b == b;
    } else if b == [] {
      assert a + b == a;
    } else if !IsSpace(a[0]) {
      CollapseConcat(a[1..], b);
      CollapseConcatWord(a, b);
    } else if LStrip(a) == [] {
      assert a[..|a|] == a;
      CollapseConcatSpaces(a, b);
    } else {
      CollapseConcat(LStrip(a), b);
      CollapseConcatSpace(a, b);
    }
  }

  lemma CollapseLast(s: string)
    requires s != [] && !IsSpace(s[|s| - 1])
    ensures Collapse(s) != [] && Collapse(s)[|Collapse(s)| - 1] == s[|s| - 1]
  {
    var c := s[|s| - 1];
    assert s == s[..|s| - 1] + [c];
    CollapseConcat(s[..|s| - 1], [c]);
    assert Collapse([c]) == [c] + Collapse([]);
  }

  lemma CollapseTrimmed(x: string)
    requires Trimmed(x)
    ensures Trimmed(Collapse(x))
  {
    if x != [] {
      CollapseLast(x);
    }
  }

  lemma CollapseOfSpaces(w: string)
    requires AllSpace(w)
    ensures AllSpace(Collapse(w))
  {
    if w != [] {
      CollapseAllSpace(w);
    }
  }

  lemma AllSpaceConcat(a: string, b: string)
    requires AllSpace(a) && AllSpace(b)
    ensures AllSpace(a + b)
  {
    forall i | 0 <= i < |a + b| ensures IsSpace((a + b)[i]) {
      if i >= |a| {
        assert (a + b)[i] == b[i - |a|];
      }
    }
  }

  lemma Assoc(a: string, b: string, c: string)
    ensures a + b + c == a + (b + c)
  {
  }

  lemma Regroup(p: string, x: string, y: string, z: string, q: string)
    ensures p + (x + y + z) + q == (p + x) + y + (z + q)
  {
  }

  lemma RegroupJoin(pa: string, xa: string, qa: string, pb: string, xb: string, qb: string)
    ensures (pa + xa + qa) + (pb + xb + qb) == pa + (xa + (qa + pb) + xb) + qb
  {
  }

  /** Collapsing then stripping equals stripping then collapsing. */
  lemma NormalizeStripFirst(t: string)
    ensures Normalize(t) == Collapse(Strip(t))
  {
    var p, q := StripParts(t);
    if Strip(t) == [] {
      NormalizeBlank(t, p, q);
    } else {
      NormalizeWords(t, p, q);
    }
  }

  lemma NormalizeBlank(t: string, p: string, q: string)
    requires AllSpace(p) && AllSpace(q) && t == p + q
    ensures Normalize(t) == []
  {
    AllSpaceConcat(p, q);
    CollapseOfSpaces(t);
    StripUnique(Collapse(t), [], []);
    assert Collapse(t) + [] + [] == Collapse(t);
  }

  lemma NormalizeWords(t: string, p: string, q: string)
    requires AllSpace(p) && AllSpace(q) && t == p + Strip(t) + q
    requires Strip(t) != []
    ensures Normalize(t) == Collapse(Strip(t))
  {
    var x := Strip(t);
    Assoc(p, x, q);
    CollapseConcat(p, x + q);
    CollapseConcat(x, q);
    Assoc(Collapse(p), Collapse(x), Collapse(q));
    CollapseOfSpaces(p);
    CollapseOfSpaces(q);
    CollapseTrimmed(x);
    StripUnique(Collapse(p), Collapse(x), Collapse(q));
  }

  /** Whitespace around a string does not change its normal form. */
  lemma NormalizePadded(p: string, t: string, q: string)
    requires AllSpace(p) && AllSpace(q)
    ensures Normalize(p + t + q) == Normalize(t)
  {
    var p', q' := StripParts(t);
    var x := Strip(t);
    Regroup(p, p', x, q', q);
    AllSpaceConcat(p, p');
    AllSpaceConcat(q', q);
    StripUnique(p + p', x, q' + q);
    NormalizeStripFirst(p + t + q);
    NormalizeStripFirst(t);
  }

  /** Two words separated by whitespace collapse to the words separated by
      one space. */
  lemma CollapseJoin(x: string, m: string, y: string)
    requires Trimmed(x) && Trimmed(y) && x != [] && y != []
    requires m != [] && AllSpace(m)
    ensures Collapse(x + m + y) == Collapse(x) + " " + Collapse(y)
  {
    Assoc(x, m, y);
    CollapseConcat(x, m + y);
    CollapseConcat(m, y);
    CollapseAllSpace(m);
    Assoc(Collapse(x), " ", Collapse(y));
  }

  /** Two strings with words in them, joined at a whitespace seam, normalise to
      their normal forms separated by exactly one space. */
  lemma NormalizeJoin(a: string, b: string)
    requires Strip(a) != [] && Strip(b) != []
    requires IsSpace(a[|a| - 1]) || IsSpace(b[0])
    ensures Normalize(a + b) == Normalize(a) + " " + Normalize(b)
  {
    var xa, xb := Strip(a), Strip(b);
    var pa, qa := StripParts(a);
    var pb, qb := StripParts(b);
    var m := qa + pb;
    AllSpaceConcat(qa, pb);
    assert m != [] by {
      if qa == [] { assert a == pa + xa; }
      if pb == [] { Assoc(pb, xb, qb); }
    }
    RegroupJoin(pa, xa, qa, pb, xb, qb);
    StripUnique(pa, xa + m + xb, qb);
    CollapseJoin(xa, m, xb);
    NormalizeStripFirst(a + b);
    NormalizeStripFirst(a);
    NormalizeStripFirst(b);
  }

  // ---------------------------------------------------------------------------
  // The extractor

  /** Normalising a string in which no `<` starts a tag leaves no tag. */
  lemma NormalizeTagFree(s: string)
    requires NoTagStarts(s)
    ensures TagFree(Normalize(s))
  {
    CollapseNoTagStarts(s);
    NoTagStartsTagFree(Collapse(s));
    StripTagFree(Collapse(s));
  }

  lemma StripTagFree(c: string)
    requires TagFree(c)
    ensures TagFree(Strip(c))
  {
    var a := StripStart(c);
    var r := Strip(c);
    TagFreeInfix(c, a, a + |r|);
  }

  /** The text `extract_text` returns for a stringified fragment: tags become
      spaces, whitespace runs become one space, the ends are stripped. The
      result holds no tag and is normalised. */
  function TextOfXml(xml: string): (r: string)
    ensures TagFree(r)
    ensures Normalized(r)
  {
    StripTagsNoTagStarts(xml);
    NormalizeTagFree(StripTags(xml));
    NormalizeIsNormalized(StripTags(xml));
    Normalize(StripTags(xml))
  }

  // ---------------------------------------------------------------------------
  // Reading a tree back

  /** What the tag substitution makes of a tree: each element contributes a
      space for its opening tag, its children, and a space for its closing
      tag; a text node contributes its characters. */
  function Flatten(n: Node): string
  {
    match n
    case Text(s) => s
    case Element(_, _, children) => " " + FlattenSeq(children) + " "
  }

  function FlattenSeq(ns: seq<Node>): string
  {
    if ns == [] then "" else Flatten(ns[0]) + FlattenSeq(ns[1..])
  }

  lemma {:induction false} FlattenSeqAppend(ns1: seq<Node>, ns2: seq<Node>)
    ensures FlattenSeq(ns1 + ns2) == FlattenSeq(ns1) + FlattenSeq(ns2)
  {
    if ns1 == [] {
      assert ns1 + ns2 == ns2;
    } else {
      assert (ns1 + ns2)[1..] == ns1[1..] + ns2;
      FlattenSeqAppend(ns1[1..], ns2);
      Assoc(Flatten(ns1[0]), FlattenSeq(ns1[1..]), FlattenSeq(ns2));
    }
  }

  /** Text with no `<` passes through the tag substitution unchanged. */
  lemma {:induction false} StripTagsText(t: string, rest: string)
    requires '<' !in t
    ensures StripTags(t + rest) == t + StripTags(rest)
    decreases |t|
  {
    if t == [] {
      assert t + rest == rest;
    } else {
      var s := t + rest;
      assert s[0] == t[0] && s[1..] == t[1..] + rest;
      assert TagLength(s) == None;
      StripTagsText(t[1..], rest);
      assert t == [t[0]] + t[1..];
      Assoc([t[0]], t[1..], StripTags(rest));
    }
  }

  /** A tag at the front becomes one space. */
  lemma StripTagsTag(t: string, rest: string)
    requires IsTag(t)
    ensures StripTags(t + rest) == " " + StripTags(rest)
  {
    var s := t + rest;
    var k := |t| - 2;
    assert s[1..][k] == '>';
    assert s[1..][..k] == t[1..|t| - 1];
    FirstIndexAt(s[1..], '>', k);
    assert TagLength(s) == Some(|t|);
    assert s[|t|..] == rest;
  }

  lemma {:induction false} AttrsStringNoClose(attrs: seq<Attr>)
    requires forall a | a in attrs :: '>' !in a.name && '>' !in a.value
    ensures '>' !in AttrsString(attrs)
  {
    if attrs != [] {
      AttrsStringNoClose(attrs[1..]);
    }
  }

  lemma OpenTagIsTag(tag: string, attrs: seq<Attr>)
    requires tag != [] && '>' !in tag
    requires forall a | a in attrs :: '>' !in a.name && '>' !in a.value
    ensures IsTag(OpenTag(tag, attrs))
  {
    AttrsStringNoClose(attrs);
    var t := OpenTag(tag, attrs);
    assert t[1..|t| - 1] == tag + AttrsString(attrs);
  }

  lemma CloseTagIsTag(tag: string)
    requires tag != [] && '>' !in tag
    ensures IsTag(CloseTag(tag))
  {
    var t := CloseTag(tag);
    assert t[1..|t| - 1] == "/" + tag;
  }

  /** The tag substitution turns a well-formed node, followed by anything,
      into its flattened text followed by the substitution of the rest. */
  lemma {:induction false} StripTagsOfNode(n: Node, rest: string)
    requires WellFormed(n)
    ensures StripTags(Stringify(n) + rest) == Flatten(n) + StripTags(rest)
    decreases n, 1
  {
    match n
    case Text(s) =>
      StripTagsText(s, rest);
    case Element(tag, attrs, cs) =>
      var open, inner, close := OpenTag(tag, attrs), StringifySeq(cs), CloseTag(tag);
      ElementRegroup(open, inner, close, rest);
      OpenTagIsTag(tag, attrs);
      CloseTagIsTag(tag);
      StripTagsTag(open, inner + (close + rest));
      StripTagsOfNodes(cs, close + rest);
      StripTagsTag(close, rest);
      ElementFlatRegroup(FlattenSeq(cs), StripTags(rest));
  }

  lemma {:induction false} StripTagsOfNodes(ns: seq<Node>, rest: string)
    requires forall n | n in ns :: WellFormed(n)
    ensures StripTags(StringifySeq(ns) + rest) == FlattenSeq(ns) + StripTags(rest)
    decreases ns, 0
  {
    if ns == [] {
      assert StringifySeq(ns) + rest == rest;
    } else {
      var head, tail := Stringify(ns[0]), StringifySeq(ns[1..]);
      Assoc(head, tail, rest);
      StripTagsOfNodes(ns[1..], rest);
      StripTagsOfNode(ns[0], tail + rest);
      Assoc(Flatten(ns[0]), FlattenSeq(ns[1..]), StripTags(rest));
    }
  }

  lemma ElementRegroup(open: string, inner: string, close: string, rest: string)
    ensures open + inner + close + rest == open + (inner + (close + rest))
  {
  }

  lemma ElementFlatRegroup(inner: string, rest: string)
    ensures " " + (inner + (" " + rest)) == " " + inner + " " + rest
  {
  }

  /** Every tag of a well-formed fragment becomes exactly one space: the
      extracted text is the normal form of the flattened tree. */
  lemma ExtractFragment(ns: seq<Node>)
    requires forall n | n in ns :: WellFormed(n)
    ensures TextOfXml(StringifySeq(ns)) == Normalize(FlattenSeq(ns))
  {
    StripTagsOfNodes(ns, "");
    assert StringifySeq(ns) + "" == StringifySeq(ns);
    assert FlattenSeq(ns) + StripTags("") == FlattenSeq(ns);
  }

  lemma FlattenSeqEnds(ns: seq<Node>)
    requires ns != []
    ensures ns[0].Element? ==> FlattenSeq(ns) != [] && FlattenSeq(ns)[0] == ' '
    ensures ns[|ns| - 1].Element? ==> FlattenSeq(ns) != [] && FlattenSeq(ns)[|FlattenSeq(ns)| - 1] == ' '
  {
    var last := ns[|ns| - 1];
    assert ns == ns[..|ns| - 1] + [last];
    FlattenSeqAppend(ns[..|ns| - 1], [last]);
    assert FlattenSeq([last]) == Flatten(last) + FlattenSeq([]);
  }

  /** Text in neighbouring nodes is never run together: when an element sits
      on either side of the seam, the texts of the two parts come out
      separated by exactly one space. */
  lemma FragmentsSeparated(ns1: seq<Node>, ns2: seq<Node>)
    requires forall n | n in ns1 :: WellFormed(n)
    requires forall n | n in ns2 :: WellFormed(n)
    requires (ns1 != [] && ns1[|ns1| - 1].Element?) || (ns2 != [] && ns2[0].Element?)
    requires TextOfXml(StringifySeq(ns1)) != [] && TextOfXml(StringifySeq(ns2)) != []
    ensures TextOfXml(StringifySeq(ns1 + ns2))
         == TextOfXml(StringifySeq(ns1)) + " " + TextOfXml(StringifySeq(ns2))
  {
    ExtractFragment(ns1);
    ExtractFragment(ns2);
    ExtractFragment(ns1 + ns2);
    FlattenSeqAppend(ns1, ns2);
    var f1, f2 := FlattenSeq(ns1), FlattenSeq(ns2);
    NormalizeNonEmpty(f1);
    NormalizeNonEmpty(f2);
    if ns1 != [] { FlattenSeqEnds(ns1); }
    if ns2 != [] { FlattenSeqEnds(ns2); }
    NormalizeJoin(f1, f2);
  }

  lemma NormalizeNonEmpty(s: string)
    requires Normalize(s) != []
    ensures Strip(s) != []
  {
    NormalizeStripFirst(s);
  }
}
