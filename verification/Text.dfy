// The parts of Go's strings package the kernels rest on, over sequences of
// runes: trimming, word splitting, and searching.
module Text {
  /** The runes unicode.IsSpace accepts. */
  predicate IsSpace(c: char) {
    || '\t' <= c <= '\r' || c == ' '
    || c == '\U{85}' || c == '\U{A0}' || c == '\U{1680}'
    || '\U{2000}' <= c <= '\U{200A}'
    || c == '\U{2028}' || c == '\U{2029}' || c == '\U{202F}'
    || c == '\U{205F}' || c == '\U{3000}'
  }

  ghost predicate All(s: string, p: char -> bool) {
    forall i :: 0 <= i < |s| ==> p(s[i])
  }

  ghost predicate NoSpaces(s: string) {
    forall i :: 0 <= i < |s| ==> !IsSpace(s[i])
  }

  /** A string neither of whose ends would be trimmed by p. */
  predicate Trimmed(s: string, p: char -> bool) {
    s == "" || (!p(s[0]) && !p(s[|s| - 1]))
  }

  function TrimLeft(s: string, p: char -> bool): (r: string)
    ensures |r| <= |s| && r == s[|s| - |r|..]
    ensures forall i :: 0 <= i < |s| - |r| ==> p(s[i])
    ensures r != "" ==> !p(r[0])
  {
    if s != "" && p(s[0]) then TrimLeft(s[1..], p) else s
  }

  function TrimRight(s: string, p: char -> bool): (r: string)
    ensures |r| <= |s| && r == s[..|r|]
    ensures forall i :: |r| <= i < |s| ==> p(s[i])
    ensures r != "" ==> !p(r[|r| - 1])
  {
    if s != "" && p(s[|s| - 1]) then TrimRight(s[..|s| - 1], p) else s
  }

  function Trim(s: string, p: char -> bool): (r: string)
    ensures Trimmed(r, p)
    ensures |r| <= |s|
  {
    TrimRight(TrimLeft(s, p), p)
  }

  function TrimSpace(s: string): (r: string)
    ensures Trimmed(r, IsSpace)
    ensures |r| <= |s|
  {
    Trim(s, IsSpace)
  }

  lemma TrimFixed(s: string, p: char -> bool)
    requires Trimmed(s, p)
    ensures Trim(s, p) == s
  {
  }

  /** Trimming removes exactly a p-prefix and a p-suffix. */
  lemma TrimSplit(s: string, p: char -> bool) returns (pre: string, suf: string)
    ensures s == pre + (Trim(s, p) + suf)
    ensures All(pre, p) && All(suf, p)
  {
    pre := SplitLeft(s, p);
    suf := SplitRight(TrimLeft(s, p), p);
  }

  lemma SplitLeft(s: string, p: char -> bool) returns (pre: string)
    ensures s == pre + TrimLeft(s, p) && All(pre, p)
  {
    pre := s[..|s| - |TrimLeft(s, p)|];
  }

  lemma SplitRight(s: string, p: char -> bool) returns (suf: string)
    ensures s == TrimRight(s, p) + suf && All(suf, p)
  {
    suf := s[|TrimRight(s, p)|..];
  }

  /** The decomposition of TrimSplit determines the trimmed string. */
  lemma TrimUnique(pre: string, mid: string, suf: string, p: char -> bool)
    requires All(pre, p) && All(suf, p) && Trimmed(mid, p)
    ensures Trim(pre + mid + suf, p) == mid
  {
    hide TrimLeft, TrimRight;
    TrimLeftPrefix(pre, mid + suf, p);
    assert pre + mid + suf == pre + (mid + suf);
    if mid == "" {
      assert mid + suf == suf == suf + "";
      TrimLeftPrefix(suf, "", p);
      TrimLeftFixed("", p);
      TrimRightFixed("", p);
    } else {
      TrimLeftFixed(mid + suf, p);
      TrimRightSuffix(mid, suf, p);
      TrimRightFixed(mid, p);
    }
  }

  lemma TrimLeftFixed(s: string, p: char -> bool)
    requires s != "" ==> !p(s[0])
    ensures TrimLeft(s, p) == s
  {
  }

  lemma TrimRightFixed(s: string, p: char -> bool)
    requires s != "" ==> !p(s[|s| - 1])
    ensures TrimRight(s, p) == s
  {
  }

  lemma {:induction false} TrimLeftPrefix(pre: string, s: string, p: char -> bool)
    requires All(pre, p)
    ensures TrimLeft(pre + s, p) == TrimLeft(s, p)
  {
    if pre == "" {
      assert pre + s == s;
    } else {
      assert (pre + s)[1..] == pre[1..] + s;
      TrimLeftPrefix(pre[1..], s, p);
    }
  }

  lemma {:induction false} TrimRightSuffix(s: string, suf: string, p: char -> bool)
    requires All(suf, p)
    ensures TrimRight(s + suf, p) == TrimRight(s, p)
  {
    if suf == "" {
      assert s + suf == s;
    } else {
      assert (s + suf)[..|s + suf| - 1] == s + suf[..|suf| - 1];
      TrimRightSuffix(s, suf[..|suf| - 1], p);
    }
  }

  /** How many leading runes are not spaces. */
  function WordLength(s: string): (n: nat)
    ensures n <= |s| && NoSpaces(s[..n])
    ensures n < |s| ==> IsSpace(s[n])
  {
    if s == "" || IsSpace(s[0]) then 0 else 1 + WordLength(s[1..])
  }

  /** strings.Fields: the maximal runs of non-space runes, in order. */
  function Fields(s: string): (ws: seq<string>)
    ensures forall i :: 0 <= i < |ws| ==> ws[i] != "" && NoSpaces(ws[i])
    decreases |s|
  {
    if s == "" then []
    else if IsSpace(s[0]) then Fields(s[1..])
    else
      var n := WordLength(s);
      [s[..n]] + Fields(s[n..])
  }

  lemma {:induction false} WordLengthOf(w: string, rest: string)
    requires NoSpaces(w)
    requires rest == "" || IsSpace(rest[0])
    ensures WordLength(w + rest) == |w|
  {
    if w == "" {
      assert w + rest == rest;
    } else {
      assert (w + rest)[1..] == w[1..] + rest;
      WordLengthOf(w[1..], rest);
    }
  }

  /** A leading word is the first field. */
  lemma FieldsOfWord(w: string, rest: string)
    requires w != "" && NoSpaces(w)
    requires rest == "" || IsSpace(rest[0])
    ensures Fields(w + rest) == [w] + Fields(rest)
  {
    WordLengthOf(w, rest);
    assert (w + rest)[..|w|] == w && (w + rest)[|w|..] == rest;
  }

  lemma FieldsAppendWord(w: string, t: string, b: string)
    requires w != "" && NoSpaces(w)
    requires t == "" || IsSpace(t[0])
    requires b == "" || IsSpace(b[0])
    requires Fields(t + b) == Fields(t) + Fields(b)
    ensures Fields(w + t + b) == Fields(w + t) + Fields(b)
  {
    hide Fields;
    assert w + t + b == w + (t + b);
    FieldsOfWord(w, t + b);
    FieldsOfWord(w, t);
    assert [w] + Fields(t) + Fields(b) == [w] + (Fields(t) + Fields(b));
  }

  /** Fields distributes over a join at a space. */
  lemma {:induction false} FieldsAppend(a: string, b: string)
    requires b == "" || IsSpace(b[0])
    ensures Fields(a + b) == Fields(a) + Fields(b)
    decreases |a|
  {
    if a == "" {
      assert a + b == b;
    } else if IsSpace(a[0]) {
      assert (a + b)[1..] == a[1..] + b;
      FieldsAppend(a[1..], b);
    } else {
      var w, t := a[..WordLength(a)], a[WordLength(a)..];
      FieldsAppend(t, b);
      assert a == w + t;
      FieldsAppendWord(w, t, b);
    }
  }

  lemma {:induction false} FieldsOfSpaces(s: string)
    requires All(s, IsSpace)
    ensures Fields(s) == []
  {
    if s != "" {
      FieldsOfSpaces(s[1..]);
    }
  }

  /** A trimmed non-empty string has a first field, and it starts the string. */
  lemma FirstField(s: string)
    requires s != "" && !IsSpace(s[0])
    ensures Fields(s) != [] && Fields(s)[0] == s[..WordLength(s)] && WordLength(s) > 0
  {
  }

  /** strings.IndexFunc: the least position satisfying p, or |s| when none does. */
  function IndexOf(s: string, p: char -> bool): (i: nat)
    ensures i <= |s|
    ensures i < |s| ==> p(s[i])
    ensures forall k :: 0 <= k < i ==> !p(s[k])
  {
    if s == "" || p(s[0]) then 0 else 1 + IndexOf(s[1..], p)
  }

  predicate OccursAt(s: string, sub: string, k: nat) {
    k + |sub| <= |s| && s[k..k + |sub|] == sub
  }

  /** strings.Index: the least position at which sub occurs, or -1. */
  function IndexSub(s: string, sub: string): int {
    if OccursAt(s, sub, 0) then 0
    else if s == "" then -1
    else
      var j := IndexSub(s[1..], sub);
      if j == -1 then -1 else j + 1
  }

  predicate HasPrefix(s: string, pre: string) {
    pre <= s
  }

  predicate HasSuffix(s: string, suf: string) {
    |suf| <= |s| && s[|s| - |suf|..] == suf
  }

  /** strings.Split on one rune: the pieces between its occurrences. */
  function Split(s: string, sep: char): (parts: seq<string>)
    ensures |parts| > 0
    ensures forall i :: 0 <= i < |parts| ==> sep !in parts[i]
  {
    if s == "" then [""]
    else
      var rest := Split(s[1..], sep);
      if s[0] == sep then [""] + rest else [[s[0]] + rest[0]] + rest[1..]
  }

  /** strings.Join. */
  function Join(parts: seq<string>, sep: string): string {
    if parts == [] then ""
    else if |parts| == 1 then parts[0]
    else parts[0] + sep + Join(parts[1..], sep)
  }

  lemma {:induction false} JoinSplit(s: string, sep: char)
    ensures Join(Split(s, sep), [sep]) == s
  {
    if s != "" {
      JoinSplit(s[1..], sep);
      var rest := Split(s[1..], sep);
      var parts := Split(s, sep);
      if s[0] == sep {
        assert parts[1..] == rest;
        assert Join(parts, [sep]) == "" + [sep] + s[1..];
      } else if |rest| == 1 {
        assert parts == [[s[0]] + rest[0]];
      } else {
        assert parts[1..] == rest[1..];
        assert Join(parts, [sep]) == [s[0]] + (rest[0] + [sep] + Join(rest[1..], [sep]));
      }
    }
  }

  lemma {:induction false} SplitPiece(piece: string, sep: char, tail: string)
    requires sep !in piece
    ensures Split(piece + [sep] + tail, sep) == [piece] + Split(tail, sep)
  {
    var s := piece + [sep] + tail;
    if piece == "" {
      assert s == [sep] + tail;
      assert s[1..] == tail;
    } else {
      assert s[1..] == piece[1..] + [sep] + tail;
      SplitPiece(piece[1..], sep, tail);
      assert s[0] == piece[0];
      assert [piece[0]] + piece[1..] == piece;
      assert Split(s, sep) == [[s[0]] + Split(s[1..], sep)[0]] + Split(s[1..], sep)[1..];
    }
  }

  lemma {:induction false} SplitAlone(piece: string, sep: char)
    requires sep !in piece
    ensures Split(piece, sep) == [piece]
  {
    if piece != "" {
      SplitAlone(piece[1..], sep);
      assert [piece[0]] + piece[1..] == piece;
    }
  }

  lemma {:induction false} SplitJoin(parts: seq<string>, sep: char)
    requires |parts| > 0
    requires forall i :: 0 <= i < |parts| ==> sep !in parts[i]
    ensures Split(Join(parts, [sep]), sep) == parts
  {
    if |parts| == 1 {
      SplitAlone(parts[0], sep);
    } else {
      SplitPiece(parts[0], sep, Join(parts[1..], [sep]));
      SplitJoin(parts[1..], sep);
      assert parts == [parts[0]] + parts[1..];
    }
  }
}
