/** The string operations of Python the core relies on: `str.lower()`, the substring test
    `sub in s`, `s.split(sep)`, `sep.join(parts)` and concatenation by `+=`. */
module Text {

  /** `str.lower()` on one character (ASCII letters only). */
  function LowerChar(c: char): char {
    if 'A' <= c <= 'Z' then (c as int - 'A' as int + 'a' as int) as char else c
  }

  /** `s.lower()`, one character at a time. */
  function Lower(s: string): (r: string)
    ensures |r| == |s|
  {
    if s == [] then [] else [LowerChar(s[0])] + Lower(s[1..])
  }

  /** `s.lower()` keeps every character in place, lower-casing upper-case ASCII letters, so no
      upper-case ASCII letter is left. */
  lemma {:induction false} LowerChars(s: string)
    ensures forall i :: 0 <= i < |s| ==> Lower(s)[i] == LowerChar(s[i])
    ensures forall i :: 0 <= i < |s| ==> !('A' <= Lower(s)[i] <= 'Z')
  {
    if s != [] {
      LowerChars(s[1..]);
      assert forall i :: 1 <= i < |s| ==> Lower(s)[i] == Lower(s[1..])[i - 1];
    }
  }

  /** `sub` occurs in `s` starting at index `i`. */
  ghost predicate OccursAt(sub: string, s: string, i: int) {
    0 <= i <= |s| - |sub| && s[i..i + |sub|] == sub
  }

  /** Python's `sub in s` on strings, as a definition: some slice of `s` equals `sub`. */
  ghost predicate Occurs(sub: string, s: string) {
    exists i :: OccursAt(sub, s, i)
  }

  /** Python's `sub in s` on strings, as a computation: compare `sub` with every prefix of
      every suffix of `s`. */
  function Contains(s: string, sub: string): bool
    decreases |s|
  {
    if |s| < |sub| then false
    else if s[..|sub|] == sub then true
    else Contains(s[1..], sub)
  }

  lemma {:induction false} ContainsIffOccurs(s: string, sub: string)
    ensures Contains(s, sub) <==> Occurs(sub, s)
    decreases |s|
  {
    if |s| < |sub| {
    } else if s[..|sub|] == sub {
      assert OccursAt(sub, s, 0);
    } else {
      ContainsIffOccurs(s[1..], sub);
      if Contains(s[1..], sub) {
        var i :| OccursAt(sub, s[1..], i);
        assert forall j :: 0 <= j < |sub| ==> sub[j] == s[1..][i + j] == s[i + 1 + j];
        assert s[i + 1..i + 1 + |sub|] == sub;
        assert OccursAt(sub, s, i + 1);
      }
      if Occurs(sub, s) {
        var i :| OccursAt(sub, s, i);
        assert i != 0;
        assert s[1..][i - 1..i - 1 + |sub|] == s[i..i + |sub|];
        assert OccursAt(sub, s[1..], i - 1);
      }
    }
  }

  /** `s.split(sep)` for a one-character separator: the pieces between separators, in order,
      always at least one; the last piece is the suffix of `s` after its last separator. */
  function Split(s: string, sep: char): (parts: seq<string>)
    ensures |parts| >= 1
  {
    if s == [] then [[]]
    else
      var init := Split(s[..|s| - 1], sep);
      var c := s[|s| - 1];
      if c == sep then init + [[]]
      else init[..|init| - 1] + [init[|init| - 1] + [c]]
  }

  /** No piece of a split holds the separator. */
  lemma {:induction false} SplitPiecesFree(s: string, sep: char)
    ensures forall k :: 0 <= k < |Split(s, sep)| ==> sep !in Split(s, sep)[k]
    decreases |s|
  {
    if s != [] {
      var init := Split(s[..|s| - 1], sep);
      var c := s[|s| - 1];
      SplitPiecesFree(s[..|s| - 1], sep);
      if c == sep {
        var parts := init + [[]];
        assert forall k :: 0 <= k < |init| ==> parts[k] == init[k];
      } else {
        var parts := init[..|init| - 1] + [init[|init| - 1] + [c]];
        assert forall k :: 0 <= k < |init| - 1 ==> parts[k] == init[k];
        assert sep !in init[|init| - 1];
      }
    }
  }

  /** The last piece of a split is the suffix of `s` after its last separator: all of `s` when
      there is none, and otherwise preceded by that separator. */
  lemma {:induction false} SplitLastPiece(s: string, sep: char)
    ensures var last := Split(s, sep)[|Split(s, sep)| - 1];
      && |last| <= |s|
      && last == s[|s| - |last|..]
      && (|last| < |s| ==> s[|s| - |last| - 1] == sep)
    decreases |s|
  {
    if s != [] {
      var s' := s[..|s| - 1];
      var c := s[|s| - 1];
      SplitLastPiece(s', sep);
      var init := Split(s', sep);
      var last := init[|init| - 1];
      assert s == s' + [c];
      if c != sep {
        assert s[|s| - |last + [c]|..] == s'[|s'| - |last|..] + [c];
      }
    }
  }

  /** `sep.join(parts)`: the parts in order with one separator between neighbours. */
  function Join(parts: seq<string>, sep: char): string {
    if |parts| == 0 then []
    else if |parts| == 1 then parts[0]
    else Join(parts[..|parts| - 1], sep) + [sep] + parts[|parts| - 1]
  }

  /** Joining the pieces of a split gives back the original string. */
  lemma {:induction false} JoinSplit(s: string, sep: char)
    ensures Join(Split(s, sep), sep) == s
    decreases |s|
  {
    if s != [] {
      var s' := s[..|s| - 1];
      var c := s[|s| - 1];
      var init := Split(s', sep);
      JoinSplit(s', sep);
      if c == sep {
        var parts := init + [[]];
        assert parts[..|parts| - 1] == init;
      } else {
        var parts := init[..|init| - 1] + [init[|init| - 1] + [c]];
        if |init| > 1 {
          assert parts[..|parts| - 1] == init[..|init| - 1];
        }
      }
      assert s == s' + [c];
    }
  }

  /** Appending text without a separator extends the last piece only. */
  lemma {:induction false} SplitAppendPiece(s: string, t: string, sep: char)
    requires sep !in t
    ensures var p := Split(s, sep);
      Split(s + t, sep) == p[..|p| - 1] + [p[|p| - 1] + t]
    decreases |t|
  {
    var p := Split(s, sep);
    if t == [] {
      assert s + t == s;
      assert p[|p| - 1] + t == p[|p| - 1];
      assert p[..|p| - 1] + [p[|p| - 1]] == p;
    } else {
      var t' := t[..|t| - 1];
      var c := t[|t| - 1];
      assert t == t' + [c];
      SplitAppendPiece(s, t', sep);
      assert (s + t)[..|s + t| - 1] == s + t';
      assert (s + t)[|s + t| - 1] == c;
      var init := Split(s + t', sep);
      assert init == p[..|p| - 1] + [p[|p| - 1] + t'];
      assert |init| == |p|;
      assert init[..|init| - 1] == p[..|p| - 1];
      assert init[|init| - 1] == p[|p| - 1] + t';
      assert (p[|p| - 1] + t') + [c] == p[|p| - 1] + (t' + [c]);
      assert c != sep;
    }
  }

  /** A separator at the end opens a new, empty last piece. */
  lemma SplitSeparatorEnd(s: string, sep: char)
    ensures Split(s + [sep], sep) == Split(s, sep) + [[]]
  {
    assert (s + [sep])[..|s + [sep]| - 1] == s;
  }

  /** Splitting a join of separator-free parts gives back the parts. */
  lemma {:induction false} SplitJoin(parts: seq<string>, sep: char)
    requires |parts| >= 1
    requires forall k :: 0 <= k < |parts| ==> sep !in parts[k]
    ensures Split(Join(parts, sep), sep) == parts
    decreases |parts|
  {
    var n := |parts|;
    var last := parts[n - 1];
    if n == 1 {
      SplitAppendPiece([], last, sep);
      assert [] + last == last;
    } else {
      var init := parts[..n - 1];
      var front := Join(init, sep);
      SplitJoin(init, sep);
      SplitSeparatorEnd(front, sep);
      var withSep := front + [sep];
      SplitAppendPiece(withSep, last, sep);
      var p := init + [[]];
      assert p[..|p| - 1] == init && p[|p| - 1] + last == last;
      assert init + [last] == parts;
    }
  }

  function TotalLength(parts: seq<string>): nat {
    if parts == [] then 0 else TotalLength(parts[..|parts| - 1]) + |parts[|parts| - 1]|
  }

  /** A join of k >= 1 parts is as long as the parts together plus k - 1 separators. */
  lemma {:induction false} JoinLength(parts: seq<string>, sep: char)
    requires |parts| >= 1
    ensures |Join(parts, sep)| == TotalLength(parts) + |parts| - 1
    decreases |parts|
  {
    if |parts| > 1 {
      JoinLength(parts[..|parts| - 1], sep);
      assert parts[..|parts| - 1][..|parts| - 2] == parts[..|parts| - 2];
    } else {
      assert parts[..0] == [];
    }
  }

  /** The parts one after the other, with nothing between them (`text += part` in a loop). */
  function Concat(parts: seq<string>): string {
    if parts == [] then [] else Concat(parts[..|parts| - 1]) + parts[|parts| - 1]
  }

  /** Concatenation keeps the order of the parts: the concatenation of two runs of parts is
      the concatenation of the first followed by that of the second. */
  lemma {:induction false} ConcatAppend(xs: seq<string>, ys: seq<string>)
    ensures Concat(xs + ys) == Concat(xs) + Concat(ys)
    decreases |ys|
  {
    if ys == [] {
      assert xs + ys == xs;
    } else {
      var ys' := ys[..|ys| - 1];
      ConcatAppend(xs, ys');
      assert (xs + ys)[..|xs + ys| - 1] == xs + ys';
    }
  }

  /** Nothing is added or dropped: the concatenation is exactly as long as its parts. */
  lemma {:induction false} ConcatLength(parts: seq<string>)
    ensures |Concat(parts)| == TotalLength(parts)
    decreases |parts|
  {
    if parts != [] {
      ConcatLength(parts[..|parts| - 1]);
    }
  }
}
