/** Shared vocabulary: failure-carrying wrappers, machine integer ranges,
    the ASCII string operations the Rust code performs through `str`, and
    Rust's `f64::round`. */
module Base {

  datatype Option<+T> = None | Some(value: T)

  datatype Result<+T, +E> = Success(value: T) | Failure(error: E)

  /** Rust's unit value `()`. */
  datatype Unit = Unit

  type byte = x: int | 0 <= x < 256

  const I32_MIN: int := -0x8000_0000
  const I32_MAX: int := 0x7FFF_FFFF
  const U32_MAX: int := 0xFFFF_FFFF

  type i32 = x: int | I32_MIN <= x <= I32_MAX

  /** `f64::round`: to the nearest integer, halves away from zero. */
  function Round(x: real): (n: int)
    ensures x - 0.5 <= n as real <= x + 0.5
    ensures x >= 0.0 ==> n >= 0
  {
    if x >= 0.0 then (x + 0.5).Floor else -((-x + 0.5).Floor)
  }

  /** A real no larger than an integer rounds to at most that integer. */
  lemma RoundAtMost(x: real, k: int)
    requires x <= k as real
    ensures Round(x) <= k
  {
  }

  lemma RoundOfInt(k: int)
    ensures Round(k as real) == k
  {
  }

  /** `v as u8` on a float: saturating. */
  function SaturateU8(v: int): (b: byte)
    ensures 0 <= v <= 255 ==> b == v
    ensures v < 0 ==> b == 0
    ensures v > 255 ==> b == 255
  {
    if v < 0 then 0 else if v > 255 then 255 else v
  }

  /** `v as u32` on a float: saturating. */
  function SaturateU32(v: int): (n: nat)
    ensures 0 <= v <= U32_MAX ==> n == v
    ensures n <= U32_MAX
  {
    if v < 0 then 0 else if v > U32_MAX then U32_MAX else v
  }

  function Max(a: int, b: int): int { if a >= b then a else b }

  function Min(a: int, b: int): int { if a <= b then a else b }

  // ---------------------------------------------------------------------
  // ASCII string operations (`to_lowercase`, `trim`, `split`)
  // ---------------------------------------------------------------------

  function LowerChar(c: char): char
  {
    if 'A' <= c <= 'Z' then (c as int + 32) as char else c
  }

  /** `str::to_lowercase`, restricted to the ASCII letters. */
  function Lower(s: string): (t: string)
    ensures |t| == |s|
    ensures forall i :: 0 <= i < |s| ==> t[i] == LowerChar(s[i])
  {
    seq(|s|, i requires 0 <= i < |s| => LowerChar(s[i]))
  }

  lemma LowerIdempotent(s: string)
    ensures Lower(Lower(s)) == Lower(s)
  {
  }

  predicate IsAsciiWhitespace(c: char)
  {
    c == ' ' || c == '\t' || c == '\n' || c == '\r' || c == '\U{B}' || c == '\U{C}'
  }

  /** `str::trim` on ASCII whitespace: drops leading and trailing blanks,
      and nothing else. */
  function Trim(s: string): (t: string)
    ensures |t| <= |s|
    ensures t != [] ==> !IsAsciiWhitespace(t[0]) && !IsAsciiWhitespace(t[|t| - 1])
  {
    var front := TrimStart(s);
    TrimEndKeepsPrefix(front);
    TrimEnd(front)
  }

  /** `TrimStart` keeps a suffix and what it removes is whitespace. */
  lemma {:induction false} TrimStartKeepsSuffix(s: string)
    ensures TrimStart(s) == s[|s| - |TrimStart(s)|..]
    ensures forall i :: 0 <= i < |s| - |TrimStart(s)| ==> IsAsciiWhitespace(s[i])
    decreases |s|
  {
    if s != [] && IsAsciiWhitespace(s[0]) {
      TrimStartKeepsSuffix(s[1..]);
      forall i | 1 <= i < |s| - |TrimStart(s)|
        ensures IsAsciiWhitespace(s[i])
      {
        assert s[i] == s[1..][i - 1];
      }
    }
  }

  /** `TrimEnd` keeps a prefix and what it removes is whitespace. */
  lemma {:induction false} TrimEndKeepsPrefix(s: string)
    ensures TrimEnd(s) == s[..|TrimEnd(s)|]
    ensures forall i :: |TrimEnd(s)| <= i < |s| ==> IsAsciiWhitespace(s[i])
    decreases |s|
  {
    if s != [] && IsAsciiWhitespace(s[|s| - 1]) {
      var init := s[..|s| - 1];
      TrimEndKeepsPrefix(init);
      forall i | |TrimEnd(s)| <= i < |s| - 1
        ensures IsAsciiWhitespace(s[i])
      {
        assert s[i] == init[i];
      }
    }
  }

  /** Trimming keeps only characters of the original text. */
  lemma TrimKeepsCharacters(s: string, c: char)
    requires c in Trim(s)
    ensures c in s
  {
    var front := TrimStart(s);
    var t := TrimEnd(front);
    TrimStartKeepsSuffix(s);
    TrimEndKeepsPrefix(front);
    var j :| 0 <= j < |t| && t[j] == c;
    assert t[j] == front[j];
    assert front[j] == s[|s| - |front| + j];
  }

  function TrimStart(s: string): (t: string)
    ensures |t| <= |s|
    ensures t != [] ==> !IsAsciiWhitespace(t[0])
  {
    if s != [] && IsAsciiWhitespace(s[0]) then TrimStart(s[1..]) else s
  }

  function TrimEnd(s: string): (t: string)
    ensures |t| <= |s|
    ensures t != [] ==> !IsAsciiWhitespace(t[|t| - 1])
  {
    if s != [] && IsAsciiWhitespace(s[|s| - 1]) then TrimEnd(s[..|s| - 1]) else s
  }

  /** `str::split(sep)`: the pieces between separators, empty ones kept. */
  function Split(s: string, sep: char): (parts: seq<string>)
    ensures |parts| >= 1
    ensures forall i :: 0 <= i < |parts| ==> sep !in parts[i]
    decreases |s|
  {
    if sep !in s then [s]
    else
      var i := IndexOf(s, sep);
      [s[..i]] + Split(s[i + 1..], sep)
  }

  function IndexOf(s: string, c: char): (i: nat)
    requires c in s
    ensures i < |s| && s[i] == c && c !in s[..i]
  {
    if s[0] == c then 0 else 1 + IndexOf(s[1..], c)
  }

  /** The pieces of the combination text "Ctrl + S", blanks kept. */
  lemma SplitExample()
    ensures Split("Ctrl + S", '+') == ["Ctrl ", " S"]
  {
    var s := "Ctrl + S";
    IndexOfFirst(s, '+', 5);
    assert s[..5] == "Ctrl ";
    assert s[6..] == " S";
    assert Split(" S", '+') == [" S"] by {
      assert forall i :: 0 <= i < 2 ==> " S"[i] != '+';
    }
  }

  /** Those pieces trimmed: one blank goes from the end of the first and
      one from the front of the second. */
  lemma TrimExample()
    ensures Trim("Ctrl ") == "Ctrl" && Trim(" S") == "S"
  {
    assert "Ctrl " == "Ctrl" + " ";
    TrimPadded("Ctrl", "", " ");
    assert " S" == " " + "S";
    TrimPadded("S", " ", "");
  }

  /** A word without blanks at its ends, padded with blanks, trims back to
      the word. */
  lemma {:induction false} TrimPadded(w: string, before: string, after: string)
    requires w != [] && !IsAsciiWhitespace(w[0]) && !IsAsciiWhitespace(w[|w| - 1])
    requires forall i :: 0 <= i < |before| ==> IsAsciiWhitespace(before[i])
    requires forall i :: 0 <= i < |after| ==> IsAsciiWhitespace(after[i])
    ensures Trim(before + w + after) == w
  {
    assert before + w + after == before + (w + after);
    TrimStartPadded(w + after, before);
    TrimEndPadded(w, after);
  }

  lemma {:induction false} TrimStartPadded(w: string, before: string)
    requires w != [] && !IsAsciiWhitespace(w[0])
    requires forall i :: 0 <= i < |before| ==> IsAsciiWhitespace(before[i])
    ensures TrimStart(before + w) == w
    decreases |before|
  {
    if before == [] {
      assert before + w == w;
    } else {
      assert (before + w)[1..] == before[1..] + w;
      TrimStartPadded(w, before[1..]);
    }
  }

  lemma {:induction false} TrimEndPadded(w: string, after: string)
    requires w != [] && !IsAsciiWhitespace(w[|w| - 1])
    requires forall i :: 0 <= i < |after| ==> IsAsciiWhitespace(after[i])
    ensures TrimEnd(w + after) == w
    decreases |after|
  {
    if after == [] {
      assert w + after == w;
    } else {
      var n := |after| - 1;
      assert (w + after)[..|w + after| - 1] == w + after[..n];
      TrimEndPadded(w, after[..n]);
    }
  }

  lemma LowerExample()
    ensures Lower("Ctrl") == "ctrl" && Lower("S") == "s"
  {
  }

  /** The index of the first occurrence, from the occurrence itself. */
  lemma {:induction false} IndexOfFirst(s: string, c: char, i: nat)
    requires i < |s| && s[i] == c && forall j :: 0 <= j < i ==> s[j] != c
    ensures IndexOf(s, c) == i
  {
    if i > 0 {
      IndexOfFirst(s[1..], c, i - 1);
    }
  }

  /** Puts the pieces back together with the separator between them. */
  function Join(parts: seq<string>, sep: char): string
    requires |parts| >= 1
  {
    if |parts| == 1 then parts[0] else parts[0] + [sep] + Join(parts[1..], sep)
  }

  /** Splitting loses nothing: the pieces, rejoined, give back the text. */
  lemma {:induction false} SplitJoin(s: string, sep: char)
    ensures Join(Split(s, sep), sep) == s
    decreases |s|
  {
    if sep in s {
      var i := IndexOf(s, sep);
      var rest := Split(s[i + 1..], sep);
      var parts := Split(s, sep);
      assert parts == [s[..i]] + rest;
      assert parts[0] == s[..i] && parts[1..] == rest && |parts| > 1;
      SplitJoin(s[i + 1..], sep);
      assert Join(parts, sep) == s[..i] + [sep] + Join(rest, sep);
      assert s == s[..i] + [sep] + s[i + 1..];
    }
  }
}
