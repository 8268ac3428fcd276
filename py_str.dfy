/**
 * The few Python `str` operations the games rely on, over `seq<char>`:
 * `strip()`, `split()` (on runs of whitespace), `split("|")`,
 * `splitlines()` (for text whose only line boundary is '\n'),
 * and `pattern in line`.
 */
module PyStr {

  /** The characters Python's `str.split()` and `str.strip()` treat as
      whitespace (`str.isspace()`): the ASCII controls 0x09-0x0D and
      0x1C-0x1F, the space, and the Unicode separators. */
  predicate IsSpace(c: char) {
    ('\t' <= c <= '\r') || ('\U{1C}' <= c <= ' ')
    || c == '\U{85}' || c == '\U{A0}' || c == '\U{1680}'
    || ('\U{2000}' <= c <= '\U{200A}')
    || c == '\U{2028}' || c == '\U{2029}' || c == '\U{202F}' || c == '\U{205F}' || c == '\U{3000}'
  }

  predicate NoSpace(s: string) {
    forall k :: 0 <= k < |s| ==> !IsSpace(s[k])
  }

  // ---------------------------------------------------------------- strip

  /** `s.lstrip()`: drops the whitespace prefix and nothing else. */
  function StripLeft(s: string): (r: string)
    ensures |r| <= |s| && r == s[|s| - |r|..]
    ensures r == [] || !IsSpace(r[0])
    ensures forall k :: 0 <= k < |s| - |r| ==> IsSpace(s[k])
  {
    if s != [] && IsSpace(s[0]) then StripLeft(s[1..]) else s
  }

  /** `s.rstrip()`: drops the whitespace suffix and nothing else. */
  function StripRight(s: string): (r: string)
    ensures |r| <= |s| && r == s[..|r|]
    ensures r == [] || !IsSpace(r[|r| - 1])
    ensures forall k :: |r| <= k < |s| ==> IsSpace(s[k])
  {
    if s != [] && IsSpace(s[|s| - 1]) then StripRight(s[..|s| - 1]) else s
  }

  /** `s.strip()`. */
  function Strip(s: string): string {
    StripRight(StripLeft(s))
  }

  /** Number of whitespace characters `strip()` removes from the front. */
  function LeadLen(s: string): nat {
    |s| - |StripLeft(s)|
  }

  /** A stripped string is a slice of the input that starts and ends with a
      non-space character, and everything cut away is whitespace. */
  lemma StripIsTrim(s: string)
    ensures LeadLen(s) + |Strip(s)| <= |s|
    ensures Strip(s) == s[LeadLen(s)..LeadLen(s) + |Strip(s)|]
    ensures Strip(s) == [] || (!IsSpace(Strip(s)[0]) && !IsSpace(Strip(s)[|Strip(s)| - 1]))
    ensures forall k :: 0 <= k < LeadLen(s) ==> IsSpace(s[k])
    ensures forall k :: LeadLen(s) + |Strip(s)| <= k < |s| ==> IsSpace(s[k])
  {
    StripSlice(s);
    StripEnds(s);
    StripCutsSpaceAtEnd(s);
  }

  lemma StripSlice(s: string)
    ensures LeadLen(s) + |Strip(s)| <= |s|
    ensures Strip(s) == s[LeadLen(s)..LeadLen(s) + |Strip(s)|]
  {
    var l := StripLeft(s);
    var r := StripRight(l);
    assert l == s[|s| - |l|..];
    assert r == l[..|r|];
  }

  lemma StripEnds(s: string)
    ensures Strip(s) == [] || (!IsSpace(Strip(s)[0]) && !IsSpace(Strip(s)[|Strip(s)| - 1]))
  {
    var l := StripLeft(s);
    var r := StripRight(l);
    if r != [] {
      assert r[0] == l[0];
    }
  }

  lemma StripCutsSpaceAtEnd(s: string)
    ensures forall k :: LeadLen(s) + |Strip(s)| <= k < |s| ==> IsSpace(s[k])
  {
    var l := StripLeft(s);
    var r := StripRight(l);
    var i := |s| - |l|;
    assert l == s[i..];
    forall k | i + |r| <= k < |s|
      ensures IsSpace(s[k])
    {
      assert s[k] == l[k - i];
    }
  }

  /** Stripping twice is stripping once. */
  lemma StripIdempotent(s: string)
    ensures Strip(Strip(s)) == Strip(s)
  {
    var r := Strip(s);
    StripIsTrim(s);
    if r != [] {
      assert StripLeft(r) == r;
      assert StripRight(r) == r;
    }
  }

  // ---------------------------------------------------------------- split()

  /** A word of `split()`: non-empty and free of whitespace. */
  predicate IsWord(w: string) {
    w != [] && NoSpace(w)
  }

  /** `s.split()` with no argument: the maximal runs of non-space characters,
      in order. A non-space character either extends the word that starts
      right after it or, when whitespace or the end follows, is a word of its own. */
  function Words(s: string): seq<string> {
    if s == [] then []
    else
      var rest := Words(s[1..]);
      if IsSpace(s[0]) then rest
      else if |s| > 1 && !IsSpace(s[1]) && rest != [] then [[s[0]] + rest[0]] + rest[1..]
      else [[s[0]]] + rest
  }

  /** Every piece `split()` returns is a word. */
  lemma {:induction false} WordsAreWords(s: string)
    ensures forall k :: 0 <= k < |Words(s)| ==> IsWord(Words(s)[k])
  {
    if s != [] {
      var rest := Words(s[1..]);
      WordsAreWords(s[1..]);
      var r := Words(s);
      if IsSpace(s[0]) {
      } else if |s| > 1 && !IsSpace(s[1]) && rest != [] {
        assert IsWord([s[0]] + rest[0]) by {
          assert IsWord(rest[0]);
        }
        forall k | 0 <= k < |r| ensures IsWord(r[k]) {
          if k > 0 { assert r[k] == rest[k]; }
        }
      } else {
        forall k | 0 <= k < |r| ensures IsWord(r[k]) {
          if k > 0 { assert r[k] == rest[k - 1]; }
        }
      }
    }
  }

  /** The characters of `s` that are not whitespace, in order. */
  function NonSpace(s: string): string {
    if s == [] then [] else (if IsSpace(s[0]) then [] else [s[0]]) + NonSpace(s[1..])
  }

  function Concat(ws: seq<string>): string {
    if ws == [] then [] else ws[0] + Concat(ws[1..])
  }

  /** The words of `s`, put back together, are exactly its non-space characters:
      `split()` drops whitespace and nothing else. */
  lemma {:induction false} WordsKeepNonSpace(s: string)
    ensures Concat(Words(s)) == NonSpace(s)
  {
    if s != [] {
      var rest := Words(s[1..]);
      WordsKeepNonSpace(s[1..]);
      if IsSpace(s[0]) {
      } else if |s| > 1 && !IsSpace(s[1]) && rest != [] {
        var r := Words(s);
        assert r[1..] == rest[1..];
        calc {
          Concat(r);
          ([s[0]] + rest[0]) + Concat(rest[1..]);
          [s[0]] + (rest[0] + Concat(rest[1..]));
          [s[0]] + Concat(rest);
        }
      } else {
        assert Words(s)[1..] == rest;
      }
    }
  }

  /** A word followed by whitespace (or by nothing) is the first word of the split. */
  lemma {:induction false} WordsOfWordThen(w: string, tail: string)
    requires IsWord(w)
    requires tail == [] || IsSpace(tail[0])
    ensures Words(w + tail) == [w] + Words(tail)
    decreases |w|
  {
    var s := w + tail;
    assert s[1..] == w[1..] + tail;
    if |w| == 1 {
      assert s[1..] == tail;
      assert w == [s[0]];
    } else {
      assert IsWord(w[1..]) by {
        forall k | 0 <= k < |w| - 1 ensures !IsSpace(w[1..][k]) {
          assert w[1..][k] == w[k + 1];
        }
      }
      WordsOfWordThen(w[1..], tail);
      assert s[1] == w[1];
      assert [w[0]] + w[1..] == w;
    }
  }

  /** `" ".join(ws)`. */
  function JoinSpace(ws: seq<string>): string {
    if ws == [] then []
    else if |ws| == 1 then ws[0]
    else ws[0] + [' '] + JoinSpace(ws[1..])
  }

  /** `split()` undoes `" ".join(...)` for words that are non-empty and hold no whitespace. */
  lemma {:induction false} WordsOfJoin(ws: seq<string>)
    requires forall k :: 0 <= k < |ws| ==> IsWord(ws[k])
    ensures Words(JoinSpace(ws)) == ws
    decreases |ws|
  {
    if |ws| == 1 {
      WordsOfWordThen(ws[0], []);
      assert ws[0] + [] == ws[0];
    } else if |ws| > 1 {
      var j := JoinSpace(ws[1..]);
      WordsOfWordThen(ws[0], [' '] + j);
      assert ws[0] + [' '] + j == ws[0] + ([' '] + j);
      assert ([' '] + j)[1..] == j;
      WordsOfJoin(ws[1..]);
      assert ws == [ws[0]] + ws[1..];
    }
  }

  // ---------------------------------------------------------------- split(sep)

  /** `s.split(sep)` for a one-character separator: keeps empty pieces. */
  function SplitOn(s: string, sep: char): (r: seq<string>)
    ensures |r| >= 1
  {
    if s == [] then [[]]
    else
      var rest := SplitOn(s[1..], sep);
      if s[0] == sep then [[]] + rest else [[s[0]] + rest[0]] + rest[1..]
  }

  /** `sep.join(parts)`. */
  function JoinWith(parts: seq<string>, sep: char): string
    requires |parts| >= 1
  {
    if |parts| == 1 then parts[0] else parts[0] + [sep] + JoinWith(parts[1..], sep)
  }

  predicate Free(p: string, sep: char) {
    forall k :: 0 <= k < |p| ==> p[k] != sep
  }

  /** No piece of a split holds the separator. */
  lemma {:induction false} SplitPiecesFree(s: string, sep: char)
    ensures forall k :: 0 <= k < |SplitOn(s, sep)| ==> Free(SplitOn(s, sep)[k], sep)
    decreases |s|
  {
    if s != [] {
      SplitPiecesFree(s[1..], sep);
      var rest := SplitOn(s[1..], sep);
      var r := SplitOn(s, sep);
      if s[0] == sep {
        assert r == [[]] + rest;
        forall k | 0 <= k < |r| ensures Free(r[k], sep) {
          if k > 0 { assert r[k] == rest[k - 1]; }
        }
      } else {
        assert r == [[s[0]] + rest[0]] + rest[1..];
        assert Free([s[0]] + rest[0], sep) by {
          assert Free(rest[0], sep);
        }
        forall k | 0 <= k < |r| ensures Free(r[k], sep) {
          if k > 0 { assert r[k] == rest[k]; }
        }
      }
    }
  }

  /** `sep.join` of a non-empty list of pieces, one piece at a time. */
  lemma JoinWithCons(p: string, parts: seq<string>, sep: char)
    requires |parts| >= 1
    ensures JoinWith([p] + parts, sep) == p + [sep] + JoinWith(parts, sep)
  {
    assert ([p] + parts)[1..] == parts;
  }

  /** Joining the pieces of a split gives back the original text. */
  lemma {:induction false} JoinSplit(s: string, sep: char)
    ensures JoinWith(SplitOn(s, sep), sep) == s
  {
    if s != [] {
      var rest := SplitOn(s[1..], sep);
      JoinSplit(s[1..], sep);
      if s[0] == sep {
        JoinWithCons([], rest, sep);
        assert s == [sep] + s[1..];
      } else if |rest| == 1 {
        assert SplitOn(s, sep) == [[s[0]] + rest[0]];
        assert s == [s[0]] + s[1..];
      } else {
        var first := [s[0]] + rest[0];
        assert rest == [rest[0]] + rest[1..];
        JoinWithCons(rest[0], rest[1..], sep);
        JoinWithCons(first, rest[1..], sep);
        assert s == [s[0]] + s[1..];
      }
    }
  }

  /** Splitting a join of separator-free pieces gives back the pieces. */
  lemma {:induction false} SplitJoin(parts: seq<string>, sep: char)
    requires |parts| >= 1
    requires forall k :: 0 <= k < |parts| ==> Free(parts[k], sep)
    ensures SplitOn(JoinWith(parts, sep), sep) == parts
    decreases |parts|, |parts[0]|
  {
    var p := parts[0];
    if p == [] {
      if |parts| > 1 {
        var tail := JoinWith(parts[1..], sep);
        assert JoinWith(parts, sep) == [sep] + tail;
        assert ([sep] + tail)[1..] == tail;
        SplitJoin(parts[1..], sep);
        assert parts == [[]] + parts[1..];
      }
    } else {
      var shorter := [p[1..]] + parts[1..];
      assert Free(p[1..], sep);
      forall k | 0 <= k < |shorter| ensures Free(shorter[k], sep) {
        if k > 0 { assert shorter[k] == parts[k]; }
      }
      SplitJoin(shorter, sep);
      var j := JoinWith(parts, sep);
      assert j == [p[0]] + JoinWith(shorter, sep) by {
        if |parts| > 1 {
          assert shorter[1..] == parts[1..];
        }
      }
      assert j[1..] == JoinWith(shorter, sep);
      assert p == [p[0]] + p[1..];
      assert parts == [p] + shorter[1..];
    }
  }

  // ---------------------------------------------------------------- splitlines()

  /** A line holds no '\n'. */
  predicate IsLine(l: string) {
    Free(l, '\n')
  }

  /** `s.splitlines()` for text whose only line boundary is '\n': the pieces
      between the '\n's, where a final '\n' does not open an empty last line
      and "" has no lines. */
  function Lines(s: string): seq<string> {
    if s == [] then []
    else if s[|s| - 1] == '\n' then SplitOn(s[..|s| - 1], '\n')
    else SplitOn(s, '\n')
  }

  /** No line `splitlines()` returns holds a '\n'. */
  lemma LinesAreLines(s: string)
    ensures forall k :: 0 <= k < |Lines(s)| ==> IsLine(Lines(s)[k])
  {
    if s != [] {
      if s[|s| - 1] == '\n' {
        SplitPiecesFree(s[..|s| - 1], '\n');
      } else {
        SplitPiecesFree(s, '\n');
      }
    }
  }

  /** Joining the lines with '\n' gives the text back, less a final '\n'. */
  lemma JoinLines(s: string)
    requires s != []
    ensures s[|s| - 1] == '\n' ==> JoinWith(Lines(s), '\n') + ['\n'] == s
    ensures s[|s| - 1] != '\n' ==> JoinWith(Lines(s), '\n') == s
  {
    if s[|s| - 1] == '\n' {
      JoinSplit(s[..|s| - 1], '\n');
      assert s[..|s| - 1] + ['\n'] == s;
    } else {
      JoinSplit(s, '\n');
    }
  }

  /** Newline-free lines, joined and terminated by '\n', split back into those lines. */
  lemma LinesOfJoin(ls: seq<string>)
    requires |ls| >= 1
    requires forall k :: 0 <= k < |ls| ==> IsLine(ls[k])
    ensures Lines(JoinWith(ls, '\n') + ['\n']) == ls
  {
    var s := JoinWith(ls, '\n') + ['\n'];
    assert s[..|s| - 1] == JoinWith(ls, '\n');
    SplitJoin(ls, '\n');
  }

  // ---------------------------------------------------------------- `p in s`

  /** `p` occurs in `s` starting at index `i`. */
  predicate OccursAt(s: string, p: string, i: nat) {
    i + |p| <= |s| && s[i..i + |p|] == p
  }

  /** Python's `p in s`: a literal substring test (the empty pattern is in every string). */
  function Contains(s: string, p: string): (b: bool)
    ensures b <==> exists i: nat :: OccursAt(s, p, i)
    decreases |s|
  {
    if p <= s then
      assert OccursAt(s, p, 0);
      true
    else if s == [] then
      false
    else
      var b := Contains(s[1..], p);
      if b then
        var i: nat :| OccursAt(s[1..], p, i);
        assert s[1..][i..i + |p|] == s[i + 1..i + 1 + |p|];
        assert OccursAt(s, p, i + 1);
        true
      else
        assert forall i: nat :: OccursAt(s, p, i) ==> i > 0 && OccursAt(s[1..], p, i - 1) by {
          forall i: nat | OccursAt(s, p, i)
            ensures i > 0 && OccursAt(s[1..], p, i - 1)
          {
            assert s[1..][i - 1..i - 1 + |p|] == s[i..i + |p|];
          }
        }
        false
  }
}
