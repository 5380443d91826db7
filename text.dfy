/**
 * String operations the source takes from Python's `str` and JavaScript's
 * `String`: lower-casing, substring search (`in` / `includes`), trimming
 * (`strip()` / `trim()`), splitting on separator characters and joining.
 * Lower-casing is ASCII only, and white space is the six ASCII characters
 * both languages strip (see README, "Left out").
 */
module Text {

  // ---------------------------------------------------------------------------
  // Characters

  /** The six ASCII white-space characters that both `str.strip()` and `String.prototype.trim()` remove. */
  predicate IsSpace(c: char) {
    c == ' ' || c == '\t' || c == '\n' || c == '\r' || c == '\U{0B}' || c == '\U{0C}'
  }

  function LowerChar(c: char): (r: char)
    ensures 'A' <= c <= 'Z' ==> 'a' <= r <= 'z'
    ensures !('A' <= c <= 'Z') ==> r == c
  {
    if 'A' <= c <= 'Z' then (c as int + 32) as char else c
  }

  predicate IsHexDigit(c: char) {
    '0' <= c <= '9' || 'a' <= c <= 'f'
  }

  /** Every character of `s` is in `cs`. */
  predicate NoneOf(s: string, cs: set<char>) {
    forall i :: 0 <= i < |s| ==> s[i] !in cs
  }

  // ---------------------------------------------------------------------------
  // Lower-casing

  /** `s.lower()` / `s.toLowerCase()` on ASCII letters. */
  function Lower(s: string): (r: string)
    ensures |r| == |s|
    ensures forall i :: 0 <= i < |s| ==> r[i] == LowerChar(s[i])
  {
    seq(|s|, i requires 0 <= i < |s| => LowerChar(s[i]))
  }

  lemma LowerIdempotent(s: string)
    ensures Lower(Lower(s)) == Lower(s)
  {
    assert forall i :: 0 <= i < |s| ==> LowerChar(LowerChar(s[i])) == LowerChar(s[i]);
  }

  // ---------------------------------------------------------------------------
  // Substrings

  predicate StartsWith(s: string, prefix: string) {
    |prefix| <= |s| && s[..|prefix|] == prefix
  }

  /** Python's `sub in s`: `sub` occurs somewhere in `s`. */
  predicate Contains(s: string, sub: string)
    decreases |s|
  {
    StartsWith(s, sub) || (|s| > 0 && Contains(s[1..], sub))
  }

  /** `Contains` holds exactly when `sub` occurs at some position of `s`. */
  lemma {:induction false} ContainsAt(s: string, sub: string, i: nat)
    requires i + |sub| <= |s| && s[i..i + |sub|] == sub
    ensures Contains(s, sub)
    decreases i
  {
    if i > 0 {
      assert s[1..][i - 1..i - 1 + |sub|] == s[i..i + |sub|];
      ContainsAt(s[1..], sub, i - 1);
    } else {
      assert s[..|sub|] == sub;
    }
  }

  /** A text that contains `sub` contains it at a position. */
  lemma {:induction false} ContainsWitness(s: string, sub: string) returns (i: nat)
    requires Contains(s, sub)
    ensures i + |sub| <= |s| && s[i..i + |sub|] == sub
    decreases |s|
  {
    if StartsWith(s, sub) {
      i := 0;
    } else {
      var j := ContainsWitness(s[1..], sub);
      assert s[1..][j..j + |sub|] == s[j + 1..j + 1 + |sub|];
      i := j + 1;
    }
  }

  lemma ContainsInPrefix(s: string, t: string, sub: string)
    requires Contains(s, sub)
    ensures Contains(s + t, sub)
  {
    var i := ContainsWitness(s, sub);
    assert (s + t)[i..i + |sub|] == s[i..i + |sub|];
    ContainsAt(s + t, sub, i);
  }

  lemma ContainsInSuffix(s: string, t: string, sub: string)
    requires Contains(t, sub)
    ensures Contains(s + t, sub)
  {
    var i := ContainsWitness(t, sub);
    assert (s + t)[|s| + i..|s| + i + |sub|] == t[i..i + |sub|];
    ContainsAt(s + t, sub, |s| + i);
  }

  // ---------------------------------------------------------------------------
  // Trimming

  /** `s` has no white space at either end. */
  predicate IsTrimmed(s: string) {
    s == [] || (!IsSpace(s[0]) && !IsSpace(s[|s| - 1]))
  }

  predicate AllSpace(s: string) {
    forall i :: 0 <= i < |s| ==> IsSpace(s[i])
  }

  function TrimStart(s: string): (r: string)
    ensures |r| <= |s| && r == s[|s| - |r|..]
    ensures r == [] || !IsSpace(r[0])
    ensures r == [] <==> AllSpace(s)
  {
    if s != [] && IsSpace(s[0]) then TrimStart(s[1..]) else s
  }

  function TrimEnd(s: string): (r: string)
    ensures |r| <= |s| && r == s[..|r|]
    ensures r == [] || !IsSpace(r[|r| - 1])
    ensures r == [] <==> AllSpace(s)
  {
    if s != [] && IsSpace(s[|s| - 1]) then TrimEnd(s[..|s| - 1]) else s
  }

  /** `s.strip()` / `s.trim()`: the part of `s` between its leading and trailing white space. */
  function Trim(s: string): (r: string)
    ensures IsTrimmed(r)
    ensures |r| <= |s|
    ensures r == [] <==> AllSpace(s)
    ensures exists i, j :: && 0 <= i <= j <= |s| && r == s[i..j]
                           && (forall k :: 0 <= k < i ==> IsSpace(s[k])) && (forall k :: j <= k < |s| ==> IsSpace(s[k]))
  {
    var a := TrimStart(s);
    assert a != [] ==> !AllSpace(a);
    TrimStartDropsSpace(s);
    TrimEndDropsSpace(a);
    SliceBetweenSpaces(s, a, TrimEnd(a));
    TrimEnd(a)
  }

  /** What `TrimStart` cuts off is white space. */
  lemma {:induction false} TrimStartDropsSpace(s: string)
    ensures forall k :: 0 <= k < |s| - |TrimStart(s)| ==> IsSpace(s[k])
    decreases |s|
  {
    if s != [] && IsSpace(s[0]) {
      TrimStartDropsSpace(s[1..]);
      assert TrimStart(s) == TrimStart(s[1..]);
      forall k | 1 <= k < |s| - |TrimStart(s)| ensures IsSpace(s[k]) {
        assert s[k] == s[1..][k - 1];
      }
    }
  }

  /** What `TrimEnd` cuts off is white space. */
  lemma {:induction false} TrimEndDropsSpace(s: string)
    ensures forall k :: |TrimEnd(s)| <= k < |s| ==> IsSpace(s[k])
    decreases |s|
  {
    if s != [] && IsSpace(s[|s| - 1]) {
      TrimEndDropsSpace(s[..|s| - 1]);
      assert TrimEnd(s) == TrimEnd(s[..|s| - 1]);
      forall k | |TrimEnd(s)| <= k < |s| - 1 ensures IsSpace(s[k]) {
        assert s[k] == s[..|s| - 1][k];
      }
    }
  }

  /** A piece cut from the front and then from the back of `s`, where both cuts are white space, is a slice between white space. */
  lemma SliceBetweenSpaces(s: string, a: string, r: string)
    requires |a| <= |s| && a == s[|s| - |a|..] && |r| <= |a| && r == a[..|r|]
    requires forall k :: 0 <= k < |s| - |a| ==> IsSpace(s[k])
    requires forall k :: |r| <= k < |a| ==> IsSpace(a[k])
    ensures exists i, j :: && 0 <= i <= j <= |s| && r == s[i..j]
                           && (forall k :: 0 <= k < i ==> IsSpace(s[k])) && (forall k :: j <= k < |s| ==> IsSpace(s[k]))
  {
    var i := |s| - |a|;
    var j := i + |r|;
    PrefixOfSuffix(s, i, |r|);
    forall k | j <= k < |s| ensures IsSpace(s[k]) {
      assert s[k] == a[k - i];
    }
  }

  /** Taking `n` after dropping `i` is the slice from `i` to `i + n`. */
  lemma PrefixOfSuffix(s: string, i: int, n: int)
    requires 0 <= i && 0 <= n && i + n <= |s|
    ensures s[i..][..n] == s[i..i + n]
  {
  }

  /** A trimmed text uses only characters of the text it was cut from. */
  lemma TrimChars(s: string, cs: set<char>)
    requires NoneOf(s, cs)
    ensures NoneOf(Trim(s), cs)
  {
    var r := Trim(s);
    var i, j :| 0 <= i <= j <= |s| && r == s[i..j];
    SliceChars(s, i, j, cs);
  }

  lemma SliceChars(s: string, i: int, j: int, cs: set<char>)
    requires NoneOf(s, cs) && 0 <= i <= j <= |s|
    ensures NoneOf(s[i..j], cs)
  {
    forall k | 0 <= k < j - i ensures s[i..j][k] !in cs {
      assert s[i..j][k] == s[i + k];
    }
  }

  lemma TrimOfTrimmed(s: string)
    requires IsTrimmed(s)
    ensures Trim(s) == s
  {
  }

  // ---------------------------------------------------------------------------
  // Splitting and joining

  /**
   * Splits `s` at every character of `seps`, as Python's `s.split(",")` and
   * JavaScript's `s.split(/[,\n]/)` do: there is always at least one piece,
   * empty pieces are kept, and no piece holds a separator.
   */
  function SplitAny(s: string, seps: set<char>): (r: seq<string>)
    ensures |r| >= 1
  {
    if s == [] then [""]
    else if s[0] in seps then [""] + SplitAny(s[1..], seps)
    else
      var rest := SplitAny(s[1..], seps);
      [[s[0]] + rest[0]] + rest[1..]
  }

  /** No piece holds a separator. */
  lemma {:induction false} SplitAnyNoSeparator(s: string, seps: set<char>)
    ensures forall k :: 0 <= k < |SplitAny(s, seps)| ==> NoneOf(SplitAny(s, seps)[k], seps)
    decreases |s|
  {
    if s != [] {
      SplitAnyNoSeparator(s[1..], seps);
      var rest := SplitAny(s[1..], seps);
      if s[0] !in seps {
        var first := [s[0]] + rest[0];
        assert NoneOf(first, seps) by {
          forall i | 0 <= i < |first| ensures first[i] !in seps {
            if i > 0 {
              assert first[i] == rest[0][i - 1];
            }
          }
        }
      }
    }
  }

  /** Every character that is not a separator lands in some piece. */
  lemma {:induction false} SplitAnyCovers(s: string, seps: set<char>, i: nat)
    requires i < |s| && s[i] !in seps
    ensures exists k :: 0 <= k < |SplitAny(s, seps)| && s[i] in SplitAny(s, seps)[k]
    decreases |s|
  {
    var r := SplitAny(s, seps);
    var rest := SplitAny(s[1..], seps);
    if s[0] in seps {
      SplitAnyCovers(s[1..], seps, i - 1);
      var k :| 0 <= k < |rest| && s[1..][i - 1] in rest[k];
      assert r[k + 1] == rest[k];
    } else if i == 0 {
      assert s[0] in r[0];
    } else {
      SplitAnyCovers(s[1..], seps, i - 1);
      var k :| 0 <= k < |rest| && s[1..][i - 1] in rest[k];
      if k == 0 {
        assert r[0] == [s[0]] + rest[0];
        assert s[i] in r[0];
      } else {
        assert r[k] == rest[k];
      }
    }
  }

  /** Every character of a piece of a split is a character of the text. */
  lemma {:induction false} SplitAnyChar(s: string, seps: set<char>, k: nat, c: char)
    requires k < |SplitAny(s, seps)| && c in SplitAny(s, seps)[k]
    ensures c in s
    decreases |s|
  {
    var r := SplitAny(s, seps);
    if s != [] {
      var rest := SplitAny(s[1..], seps);
      if s[0] in seps {
        if k > 0 {
          assert r[k] == rest[k - 1];
          SplitAnyChar(s[1..], seps, k - 1, c);
        }
      } else if k == 0 {
        assert r[0] == [s[0]] + rest[0];
        if c != s[0] {
          SplitAnyChar(s[1..], seps, 0, c);
        }
      } else {
        assert r[k] == rest[k];
        SplitAnyChar(s[1..], seps, k, c);
      }
    }
  }

  function Split(s: string, sep: char): (r: seq<string>)
    ensures |r| >= 1
  {
    SplitAny(s, {sep})
  }

  /** `sep.join(parts)` / `parts.join(sep)`. */
  function Join(parts: seq<string>, sep: string): string
  {
    if |parts| == 0 then ""
    else if |parts| == 1 then parts[0]
    else parts[0] + sep + Join(parts[1..], sep)
  }

  lemma JoinPrependHead(a: string, parts: seq<string>, sep: string)
    requires |parts| >= 1
    ensures Join([a + parts[0]] + parts[1..], sep) == a + Join(parts, sep)
  {
    var q := [a + parts[0]] + parts[1..];
    assert q[1..] == parts[1..];
  }

  /** Every part occurs in the joined text. */
  lemma {:induction false} JoinContainsPart(parts: seq<string>, sep: string, k: nat)
    requires k < |parts|
    ensures Contains(Join(parts, sep), parts[k])
    decreases |parts|
  {
    if |parts| == 1 {
      ContainsAt(parts[0], parts[0], 0);
    } else if k == 0 {
      ContainsAt(parts[0], parts[0], 0);
      ContainsInPrefix(parts[0], sep + Join(parts[1..], sep), parts[0]);
      assert parts[0] + sep + Join(parts[1..], sep) == parts[0] + (sep + Join(parts[1..], sep));
    } else {
      JoinContainsPart(parts[1..], sep, k - 1);
      ContainsInSuffix(parts[0] + sep, Join(parts[1..], sep), parts[k]);
    }
  }

  /** Joining the pieces of a split with the separator gives the text back. */
  lemma {:induction false} JoinSplit(s: string, sep: char)
    ensures Join(Split(s, sep), [sep]) == s
    decreases |s|
  {
    if s != [] {
      var rest := Split(s[1..], sep);
      JoinSplit(s[1..], sep);
      if s[0] == sep {
        var r := [""] + rest;
        assert Split(s, sep) == r;
        assert r[1..] == rest;
        assert Join(r, [sep]) == "" + [sep] + Join(rest, [sep]);
        assert [sep] + s[1..] == s;
      } else {
        JoinPrependHead([s[0]], rest, [sep]);
        assert [s[0]] + s[1..] == s;
      }
    }
  }

  lemma {:induction false} SplitNoSep(a: string, sep: char)
    requires NoneOf(a, {sep})
    ensures Split(a, sep) == [a]
    decreases |a|
  {
    if a != [] {
      SplitNoSep(a[1..], sep);
      assert [a[0]] + a[1..] == a;
    }
  }

  lemma {:induction false} SplitAfterSep(a: string, sep: char, b: string)
    requires NoneOf(a, {sep})
    ensures Split(a + [sep] + b, sep) == [a] + Split(b, sep)
    decreases |a|
  {
    var s := a + [sep] + b;
    if a == [] {
      assert s[0] == sep && s[1..] == b;
    } else {
      assert s[0] == a[0] && s[1..] == a[1..] + [sep] + b;
      SplitAfterSep(a[1..], sep, b);
      assert [a[0]] + a[1..] == a;
    }
  }

  /** Splitting a join of separator-free parts gives the parts back. */
  lemma {:induction false} SplitJoin(parts: seq<string>, sep: char)
    requires |parts| >= 1
    requires forall k :: 0 <= k < |parts| ==> NoneOf(parts[k], {sep})
    ensures Split(Join(parts, [sep]), sep) == parts
    decreases |parts|
  {
    if |parts| == 1 {
      SplitNoSep(parts[0], sep);
    } else {
      SplitJoin(parts[1..], sep);
      SplitAfterSep(parts[0], sep, Join(parts[1..], [sep]));
      assert [parts[0]] + parts[1..] == parts;
    }
  }

  /** `[p for p in parts if p]`: the non-empty parts, in order. */
  function NonEmpty(parts: seq<string>): (r: seq<string>)
    ensures |r| <= |parts|
    ensures |parts| == 1 ==> r == if parts[0] == "" then [] else parts
  {
    if parts == [] then []
    else (if parts[0] != "" then [parts[0]] else []) + NonEmpty(parts[1..])
  }

  /** No empty part is kept, every non-empty one is, and nothing is kept exactly when every part is empty. */
  lemma {:induction false} NonEmptyKeeps(parts: seq<string>)
    ensures forall k :: 0 <= k < |NonEmpty(parts)| ==> NonEmpty(parts)[k] != ""
    ensures NonEmpty(parts) == [] <==> forall k :: 0 <= k < |parts| ==> parts[k] == ""
    ensures forall k :: 0 <= k < |parts| && parts[k] != "" ==> parts[k] in NonEmpty(parts)
    decreases |parts|
  {
    if parts != [] {
      NonEmptyKeeps(parts[1..]);
      var head := if parts[0] != "" then [parts[0]] else [];
      assert NonEmpty(parts) == head + NonEmpty(parts[1..]);
      forall k | 0 <= k < |parts| && parts[k] != "" ensures parts[k] in NonEmpty(parts) {
        if k > 0 {
          assert parts[k] == parts[1..][k - 1];
        }
      }
    }
  }

  /** Dropping the empty parts of two lists in a row drops them from each, in order. */
  lemma {:induction false} NonEmptyAppend(a: seq<string>, b: seq<string>)
    ensures NonEmpty(a + b) == NonEmpty(a) + NonEmpty(b)
    decreases |a|
  {
    if a == [] {
      assert a + b == b;
    } else {
      var head := if a[0] != "" then [a[0]] else [];
      assert (a + b)[0] == a[0] && (a + b)[1..] == a[1..] + b;
      NonEmptyAppend(a[1..], b);
      calc {
        NonEmpty(a + b);
        head + NonEmpty(a[1..] + b);
        head + (NonEmpty(a[1..]) + NonEmpty(b));
        (head + NonEmpty(a[1..])) + NonEmpty(b);
        NonEmpty(a) + NonEmpty(b);
      }
    }
  }

  /** `sep.join(p for p in parts if p)`: the non-empty parts joined; every one of them occurs in it. */
  function JoinNonEmpty(parts: seq<string>, sep: string): (r: string)
    ensures r == Join(NonEmpty(parts), sep)
    ensures r == "" <==> forall k :: 0 <= k < |parts| ==> parts[k] == ""
    ensures forall k :: 0 <= k < |parts| ==> Contains(r, parts[k])
  {
    JoinNonEmptyContains(parts, sep);
    Join(NonEmpty(parts), sep)
  }

  lemma JoinNonEmptyContains(parts: seq<string>, sep: string)
    ensures Join(NonEmpty(parts), sep) == "" <==> forall k :: 0 <= k < |parts| ==> parts[k] == ""
    ensures forall k :: 0 <= k < |parts| ==> Contains(Join(NonEmpty(parts), sep), parts[k])
  {
    NonEmptyKeeps(parts);
    var cleaned := NonEmpty(parts);
    var joined := Join(cleaned, sep);
    if cleaned != [] {
      JoinContainsPart(cleaned, sep, 0);
    }
    forall k | 0 <= k < |parts|
      ensures Contains(joined, parts[k])
    {
      if parts[k] == "" {
        ContainsAt(joined, "", 0);
      } else {
        var j :| 0 <= j < |cleaned| && cleaned[j] == parts[k];
        JoinContainsPart(cleaned, sep, j);
      }
    }
  }

  /**
   * The pieces that are not blank, each trimmed, in order: the
   * `.map(s => s.trim()).filter(s => s.length > 0)` and
   * `[o.strip() for o in pieces if o.strip()]` idiom.
   */
  function NonBlankTrimmed(pieces: seq<string>): (r: seq<string>)
    ensures |r| <= |pieces|
  {
    if pieces == [] then []
    else
      var t := Trim(pieces[0]);
      if t == [] then NonBlankTrimmed(pieces[1..]) else [t] + NonBlankTrimmed(pieces[1..])
  }

  /** Every piece is nonempty and trimmed. */
  predicate CleanPieces(xs: seq<string>) {
    forall k :: 0 <= k < |xs| ==> xs[k] != [] && IsTrimmed(xs[k])
  }

  lemma CleanCons(t: string, rest: seq<string>)
    requires t != [] && IsTrimmed(t) && CleanPieces(rest)
    ensures CleanPieces([t] + rest)
  {
    forall k | 1 <= k < |[t] + rest| ensures ([t] + rest)[k] == rest[k - 1] {
    }
  }

  /** Every piece kept is nonempty and trimmed. */
  lemma {:induction false} NonBlankTrimmedClean(pieces: seq<string>)
    ensures CleanPieces(NonBlankTrimmed(pieces))
    decreases |pieces|
  {
    if pieces != [] {
      NonBlankTrimmedClean(pieces[1..]);
      var t := Trim(pieces[0]);
      if t != [] {
        CleanCons(t, NonBlankTrimmed(pieces[1..]));
      }
    }
  }

  /** Only blank pieces give nothing. */
  lemma {:induction false} NonBlankTrimmedEmpty(pieces: seq<string>)
    ensures NonBlankTrimmed(pieces) == [] <==> forall k :: 0 <= k < |pieces| ==> AllSpace(pieces[k])
    decreases |pieces|
  {
    if pieces != [] {
      NonBlankTrimmedEmpty(pieces[1..]);
      assert forall k :: 1 <= k < |pieces| ==> pieces[k] == pieces[1..][k - 1];
    }
  }

  /** No piece holds a character of `cs`. */
  predicate PiecesAvoid(xs: seq<string>, cs: set<char>) {
    forall k :: 0 <= k < |xs| ==> NoneOf(xs[k], cs)
  }

  lemma AvoidCons(t: string, rest: seq<string>, cs: set<char>)
    requires NoneOf(t, cs) && PiecesAvoid(rest, cs)
    ensures PiecesAvoid([t] + rest, cs)
  {
    forall k | 1 <= k < |[t] + rest| ensures ([t] + rest)[k] == rest[k - 1] {
    }
  }

  lemma AvoidTail(xs: seq<string>, cs: set<char>)
    requires xs != [] && PiecesAvoid(xs, cs)
    ensures NoneOf(xs[0], cs) && PiecesAvoid(xs[1..], cs)
  {
    forall k | 0 <= k < |xs[1..]| ensures xs[1..][k] == xs[k + 1] {
    }
  }

  /** Trimming and dropping blank pieces brings in no character that no piece had. */
  lemma {:induction false} NonBlankTrimmedChars(pieces: seq<string>, cs: set<char>)
    requires PiecesAvoid(pieces, cs)
    ensures PiecesAvoid(NonBlankTrimmed(pieces), cs)
    decreases |pieces|
  {
    if pieces != [] {
      AvoidTail(pieces, cs);
      TrimChars(pieces[0], cs);
      NonBlankTrimmedChars(pieces[1..], cs);
      if Trim(pieces[0]) != [] {
        AvoidCons(Trim(pieces[0]), NonBlankTrimmed(pieces[1..]), cs);
      }
    }
  }

  /** Pieces that are already non-blank and trimmed pass through unchanged. */
  lemma {:induction false} NonBlankTrimmedFixed(pieces: seq<string>)
    requires forall k :: 0 <= k < |pieces| ==> pieces[k] != [] && IsTrimmed(pieces[k])
    ensures NonBlankTrimmed(pieces) == pieces
    decreases |pieces|
  {
    if pieces != [] {
      TrimmedTail(pieces);
      NonBlankTrimmedFixed(pieces[1..]);
      TrimOfTrimmed(pieces[0]);
      assert NonBlankTrimmed(pieces) == [pieces[0]] + NonBlankTrimmed(pieces[1..]);
      assert [pieces[0]] + pieces[1..] == pieces;
    }
  }

  /** The tail of a list of non-blank trimmed pieces is one too. */
  lemma TrimmedTail(pieces: seq<string>)
    requires pieces != [] && forall k :: 0 <= k < |pieces| ==> pieces[k] != [] && IsTrimmed(pieces[k])
    ensures forall k :: 0 <= k < |pieces[1..]| ==> pieces[1..][k] != [] && IsTrimmed(pieces[1..][k])
  {
    forall k | 0 <= k < |pieces[1..]| ensures pieces[1..][k] == pieces[k + 1] {
    }
  }

  /** Every non-blank piece is there, trimmed: nothing is dropped but blank pieces. */
  lemma {:induction false} NonBlankTrimmedKeeps(pieces: seq<string>, k: nat)
    requires k < |pieces| && !AllSpace(pieces[k])
    ensures Trim(pieces[k]) in NonBlankTrimmed(pieces)
    decreases |pieces|
  {
    var rest := NonBlankTrimmed(pieces[1..]);
    if k == 0 {
      assert Trim(pieces[0]) != [];
      assert NonBlankTrimmed(pieces) == [Trim(pieces[0])] + rest;
    } else {
      NonBlankTrimmedKeeps(pieces[1..], k - 1);
      assert pieces[1..][k - 1] == pieces[k];
      var t := Trim(pieces[0]);
      assert NonBlankTrimmed(pieces) == if t == [] then rest else [t] + rest;
    }
  }

  // ---------------------------------------------------------------------------
  // Numbers as text

  function DigitChar(d: nat): (c: char)
    requires d < 10
    ensures '0' <= c <= '9'
  {
    ('0' as int + d) as char
  }

  /** The decimal digits of `n`, without leading zeros (`str(n)`, `${n}`). */
  function NatToString(n: nat): (r: string)
    ensures |r| >= 1
    ensures forall i :: 0 <= i < |r| ==> '0' <= r[i] <= '9'
    ensures |r| > 1 ==> r[0] != '0'
  {
    if n < 10 then [DigitChar(n)] else NatToString(n / 10) + [DigitChar(n % 10)]
  }

  function IntToString(n: int): (r: string)
    ensures |r| >= 1
  {
    if n < 0 then "-" + NatToString(-n) else NatToString(n)
  }
}
