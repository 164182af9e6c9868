/** `label.toLowerCase().replace(/\s+/g, '-')`, the id rule Toggle and Input share. */
module Slug {
  import Seqs

  /** The characters JavaScript's `\s` matches. */
  predicate IsSpace(c: char) {
    || c == ' ' || c == '\t' || c == '\n' || c == '\U{000B}' || c == '\U{000C}' || c == '\r'
    || c == '\U{00A0}' || c == '\U{1680}' || ('\U{2000}' <= c <= '\U{200A}')
    || c == '\U{2028}' || c == '\U{2029}' || c == '\U{202F}' || c == '\U{205F}'
    || c == '\U{3000}' || c == '\U{FEFF}'
  }

  predicate NoSpace(s: string) {
    forall i :: 0 <= i < |s| ==> !IsSpace(s[i])
  }

  predicate AllSpace(s: string) {
    forall i :: 0 <= i < |s| ==> IsSpace(s[i])
  }

  /** `toLowerCase` on ASCII letters; every other character is kept. */
  function LowerChar(c: char): (d: char)
    ensures IsSpace(d) <==> IsSpace(c)
    ensures 'A' <= c <= 'Z' ==> 'a' <= d <= 'z' && d as int - 'a' as int == c as int - 'A' as int
    ensures !('A' <= c <= 'Z') ==> d == c
  {
    if 'A' <= c <= 'Z' then (c as int - 'A' as int + 'a' as int) as char else c
  }

  function Lower(s: string): (r: string)
    ensures |r| == |s|
    ensures forall i :: 0 <= i < |s| ==> r[i] == LowerChar(s[i])
    decreases |s|
  {
    if s == [] then [] else [LowerChar(s[0])] + Lower(s[1..])
  }

  /** The rest of `s` after its leading whitespace. */
  function DropSpaces(s: string): (r: string)
    ensures |r| <= |s| && r == s[|s| - |r|..]
    ensures AllSpace(s[..|s| - |r|])
    ensures r == [] || !IsSpace(r[0])
    decreases |s|
  {
    if s != [] && IsSpace(s[0]) then DropSpaces(s[1..]) else s
  }

  /** Each maximal run of whitespace becomes one '-'. */
  function Hyphenate(s: string): (r: string)
    ensures NoSpace(r)
    ensures |r| <= |s|
    ensures NoSpace(s) ==> r == s
    decreases |s|
  {
    if s == [] then []
    else if IsSpace(s[0]) then "-" + Hyphenate(DropSpaces(s[1..]))
    else [s[0]] + Hyphenate(s[1..])
  }

  function Slug(text: string): (r: string)
    ensures NoSpace(r) && |r| <= |text|
  {
    Hyphenate(Lower(text))
  }

  function NotSpace(c: char): bool {
    !IsSpace(c)
  }

  /** The non-whitespace characters of the input survive, in order. */
  lemma {:induction false} HyphenateKeepsOrder(s: string)
    ensures Seqs.IsSubsequence(Seqs.Filter(NotSpace, s), Hyphenate(s))
    decreases |s|
  {
    if s != [] {
      var x, t := s[0], s[1..];
      assert s == [x] + t;
      Seqs.FilterCons(NotSpace, x, t);
      if IsSpace(x) {
        var rest := DropSpaces(t);
        var k := |t| - |rest|;
        assert t == t[..k] + rest;
        Seqs.FilterAppend(NotSpace, t[..k], rest);
        Seqs.FilterKeepsNone(NotSpace, t[..k]);
        assert Seqs.Filter(NotSpace, s) == Seqs.Filter(NotSpace, rest);
        assert Hyphenate(s) == "-" + Hyphenate(rest);
        HyphenateKeepsOrder(rest);
        SubsequenceOfTail(Seqs.Filter(NotSpace, rest), Hyphenate(rest), '-');
      } else {
        var ft, ht := Seqs.Filter(NotSpace, t), Hyphenate(t);
        assert Seqs.Filter(NotSpace, s) == [x] + ft;
        assert Hyphenate(s) == [x] + ht;
        HyphenateKeepsOrder(t);
        assert ([x] + ft)[1..] == ft && ([x] + ht)[1..] == ht;
      }
    }
  }

  lemma SubsequenceOfTail(a: string, b: string, c: char)
    requires Seqs.IsSubsequence(a, b)
    ensures Seqs.IsSubsequence(a, [c] + b)
  {
    if a != [] && a[0] == c {
      IsSubsequenceDropHead(a, b);
      assert ([c] + b)[1..] == b;
    } else {
      assert ([c] + b)[1..] == b;
    }
  }

  lemma {:induction false} IsSubsequenceDropHead(a: string, b: string)
    requires a != [] && Seqs.IsSubsequence(a, b)
    ensures Seqs.IsSubsequence(a[1..], b)
    decreases |b|
  {
    if a[1..] != [] && b != [] {
      if a[0] == b[0] {
        if a[1] == b[0] {
          IsSubsequenceDropHead(a[1..], b[1..]);
        } else {
          assert Seqs.IsSubsequence(a[1..], b[1..]);
        }
      } else {
        IsSubsequenceDropHead(a, b[1..]);
        if a[1] == b[0] {
          IsSubsequenceDropHead(a[1..], b[1..]);
        }
      }
    }
  }

  /** One run of whitespace between two words becomes exactly one '-'. */
  lemma {:induction false} HyphenateSplit(a: string, ws: string, b: string)
    requires NoSpace(a) && ws != [] && AllSpace(ws) && (b == [] || !IsSpace(b[0]))
    ensures Hyphenate(a + ws + b) == a + "-" + Hyphenate(b)
    decreases |a|
  {
    if a == [] {
      assert a + ws + b == ws + b;
      DropLeadingSpaces(ws[1..], b);
      assert (ws + b)[1..] == ws[1..] + b;
    } else {
      assert (a + ws + b)[1..] == a[1..] + ws + b;
      HyphenateSplit(a[1..], ws, b);
    }
  }

  lemma {:induction false} DropLeadingSpaces(ws: string, b: string)
    requires AllSpace(ws) && (b == [] || !IsSpace(b[0]))
    ensures DropSpaces(ws + b) == b
    decreases |ws|
  {
    if ws == [] {
      assert ws + b == b;
    } else {
      assert (ws + b)[1..] == ws[1..] + b;
      DropLeadingSpaces(ws[1..], b);
    }
  }

  /** The slug of a label without whitespace is the label lowercased. */
  lemma SlugOfWord(text: string)
    requires NoSpace(text)
    ensures Slug(text) == Lower(text)
  {
    assert NoSpace(Lower(text));
  }
}
