/**
  The whitespace tokenizer used to read the keys of a route map: a model of
  Go's strings.Fields, which splits a string around each run of one or more
  white-space characters (as unicode.IsSpace defines them) and drops empty
  tokens.
*/
module Fields {

  /** Go's unicode.IsSpace: the Latin-1 spaces and the other characters with
      the Unicode White_Space property. */
  predicate IsSpace(c: char) {
    || c == '\t' || c == '\n' || c == '\U{B}' || c == '\U{C}' || c == '\r' || c == ' '
    || c == '\U{85}' || c == '\U{A0}' || c == '\U{1680}'
    || ('\U{2000}' <= c <= '\U{200A}')
    || c == '\U{2028}' || c == '\U{2029}' || c == '\U{202F}' || c == '\U{205F}' || c == '\U{3000}'
  }

  predicate NoSpace(s: string) {
    forall i :: 0 <= i < |s| ==> !IsSpace(s[i])
  }

  predicate AllSpace(s: string) {
    forall i :: 0 <= i < |s| ==> IsSpace(s[i])
  }

  /** The length of the longest prefix of `s` without white space. */
  function WordLength(s: string): (n: nat)
    ensures n <= |s|
    ensures NoSpace(s[..n])
    ensures n < |s| ==> IsSpace(s[n])
  {
    if s == [] || IsSpace(s[0]) then 0 else 1 + WordLength(s[1..])
  }

  /** strings.Fields: the maximal runs of non-space characters, in order. */
  function Split(s: string): (r: seq<string>)
    ensures forall i :: 0 <= i < |r| ==> r[i] != [] && NoSpace(r[i])
    decreases |s|
  {
    if s == [] then []
    else if IsSpace(s[0]) then Split(s[1..])
    else
      var n := WordLength(s);
      [s[..n]] + Split(s[n..])
  }

  /** The characters of `s` that are not white space, in order. */
  function DropSpaces(s: string): string {
    if s == [] then []
    else if IsSpace(s[0]) then DropSpaces(s[1..])
    else [s[0]] + DropSpaces(s[1..])
  }

  function Concat(ws: seq<string>): string {
    if ws == [] then [] else ws[0] + Concat(ws[1..])
  }

  lemma {:induction false} DropSpacesAppend(a: string, b: string)
    ensures DropSpaces(a + b) == DropSpaces(a) + DropSpaces(b)
  {
    if a != [] {
      assert (a + b)[1..] == a[1..] + b;
      DropSpacesAppend(a[1..], b);
    } else {
      assert a + b == b;
    }
  }

  lemma {:induction false} DropSpacesOfWord(w: string)
    requires NoSpace(w)
    ensures DropSpaces(w) == w
  {
    if w != [] {
      DropSpacesOfWord(w[1..]);
    }
  }

  /** No character is lost or invented: the tokens, glued together, are the
      input with its white space removed. */
  lemma {:induction false} SplitKeepsEveryNonSpace(s: string)
    ensures Concat(Split(s)) == DropSpaces(s)
    decreases |s|
  {
    if s == [] {
    } else if IsSpace(s[0]) {
      SplitKeepsEveryNonSpace(s[1..]);
    } else {
      var n := WordLength(s);
      assert s == s[..n] + s[n..];
      SplitKeepsEveryNonSpace(s[n..]);
      DropSpacesAppend(s[..n], s[n..]);
      DropSpacesOfWord(s[..n]);
      assert Split(s)[1..] == Split(s[n..]);
    }
  }

  /** Leading white space, of any length, is skipped. */
  lemma {:induction false} SplitSkipsSpaces(ws: string, s: string)
    requires AllSpace(ws)
    ensures Split(ws + s) == Split(s)
  {
    if ws != [] {
      assert (ws + s)[1..] == ws[1..] + s;
      SplitSkipsSpaces(ws[1..], s);
    } else {
      assert ws + s == s;
    }
  }

  lemma {:induction false} WordLengthOfWord(w: string, s: string)
    requires NoSpace(w)
    requires s == [] || IsSpace(s[0])
    ensures WordLength(w + s) == |w|
  {
    if w == [] {
      assert w + s == s;
    } else {
      assert (w + s)[1..] == w[1..] + s;
      WordLengthOfWord(w[1..], s);
    }
  }

  /** A word that ends at white space (or at the end) is one token. */
  lemma SplitTakesWord(w: string, s: string)
    requires w != [] && NoSpace(w)
    requires s == [] || IsSpace(s[0])
    ensures Split(w + s) == [w] + Split(s)
  {
    WordLengthOfWord(w, s);
    assert (w + s)[..|w|] == w;
    assert (w + s)[|w|..] == s;
  }

  /** Two words separated by a non-empty run of white space, with optional
      white space around them, split into exactly those two words. */
  lemma SplitTwoWords(pre: string, a: string, mid: string, b: string, post: string)
    requires AllSpace(pre) && AllSpace(mid) && AllSpace(post) && mid != []
    requires a != [] && NoSpace(a) && b != [] && NoSpace(b)
    ensures Split(pre + a + mid + b + post) == [a, b]
  {
    assert pre + a + mid + b + post == pre + (a + (mid + (b + post)));
    SplitSkipsSpaces(pre, a + (mid + (b + post)));
    SplitTakesWord(a, mid + (b + post));
    SplitSkipsSpaces(mid, b + post);
    if post == [] {
      assert b + post == b + [];
      SplitTakesWord(b, []);
    } else {
      SplitTakesWord(b, post);
      SplitSkipsSpaces(post, []);
      assert post + [] == post;
    }
  }
}
