/**
 * String operations the driver relies on, with the semantics of the library
 * calls they model: Python's `str.startswith`, `in`, `find`, `count`,
 * `split(sep)`, `sep.join`, `lower()`, file-line iteration, and Java's
 * `String.split`, `indexOf`, `toLowerCase`, `Integer.valueOf` and the
 * decimal rendering of an `int`.  Only ASCII letters and digits are
 * interpreted; every other character is passed through unchanged.
 */
module Text {
  import opened Wrappers

  // ---------------------------------------------------------------------
  // Prefixes and substrings

  /** `s.startswith(prefix)` / `s.startsWith(prefix)`. */
  predicate StartsWith(s: string, prefix: string) {
    |prefix| <= |s| && s[..|prefix|] == prefix
  }

  /** `s` is non-empty and its last character is `c`. */
  predicate EndsWithChar(s: string, c: char) {
    |s| > 0 && s[|s| - 1] == c
  }

  /** `t` occurs in `s` at position `i`. */
  predicate OccursAt(s: string, t: string, i: int) {
    0 <= i && i + |t| <= |s| && s[i..i + |t|] == t
  }

  /** `t in s` (Python) / `s.indexOf(t) >= 0` (Java). */
  predicate Contains(s: string, t: string) {
    exists i | 0 <= i <= |s| - |t| :: OccursAt(s, t, i)
  }

  /** The first position at or after `k` where `t` occurs in `s`, or -1. */
  function IndexFrom(s: string, t: string, k: nat): int
    decreases |s| - k
  {
    if k + |t| > |s| then -1
    else if s[k..k + |t|] == t then k
    else IndexFrom(s, t, k + 1)
  }

  /** IndexFrom finds the first occurrence at or after `k`, and -1 only when there is none. */
  lemma {:induction false} IndexFromFirst(s: string, t: string, k: nat)
    ensures var r := IndexFrom(s, t, k);
            (r == -1 || (k <= r && OccursAt(s, t, r)))
            && (r == -1 ==> forall i | k <= i :: !OccursAt(s, t, i))
            && (r >= 0 ==> forall i | k <= i < r :: !OccursAt(s, t, i))
    decreases |s| - k
  {
    if k + |t| <= |s| && s[k..k + |t|] != t {
      IndexFromFirst(s, t, k + 1);
    }
  }

  /** `x` occurs in `s`, and `y` occurs somewhere after that occurrence. */
  ghost predicate OccursInOrder(s: string, x: string, y: string) {
    exists i, j | 0 <= i && i + |x| <= j :: OccursAt(s, x, i) && OccursAt(s, y, j)
  }

  /** The same test as a search: the first `x`, then the first `y` after it. */
  predicate FoundInOrder(s: string, x: string, y: string) {
    var i := IndexFrom(s, x, 0);
    i >= 0 && IndexFrom(s, y, i + |x|) >= 0
  }

  /** Looking for the first `x` loses nothing: any later `x` leaves a shorter tail to search. */
  lemma FoundInOrderIff(s: string, x: string, y: string)
    ensures FoundInOrder(s, x, y) <==> OccursInOrder(s, x, y)
  {
    var i := IndexFrom(s, x, 0);
    IndexFromFirst(s, x, 0);
    if i >= 0 {
      var j := IndexFrom(s, y, i + |x|);
      IndexFromFirst(s, y, i + |x|);
      if j >= 0 {
        assert OccursAt(s, x, i) && OccursAt(s, y, j);
      } else {
        assert forall i', j' | 0 <= i' && i' + |x| <= j' && OccursAt(s, x, i') :: !OccursAt(s, y, j');
      }
    }
  }


  /** `s.find(t)` / `s.indexOf(t)`: the first occurrence of `t`, or -1. */
  function IndexOf(s: string, t: string): (r: int)
    ensures r >= -1
    ensures r == -1 <==> !Contains(s, t)
    ensures r >= 0 ==> OccursAt(s, t, r) && forall i | 0 <= i < r :: !OccursAt(s, t, i)
  {
    IndexFromFirst(s, t, 0);
    var r := IndexFrom(s, t, 0);
    assert r >= 0 ==> r <= |s| - |t|;
    r
  }

  /** A one-character string occurs exactly where that character stands. */
  lemma OccursAtChar(s: string, c: char, i: int)
    ensures OccursAt(s, [c], i) <==> (0 <= i < |s| && s[i] == c)
  {
    if 0 <= i < |s| {
      assert s[i..i + 1] == [s[i]];
    }
  }

  /** The first occurrence of a character: before it, no character is `c`. */
  lemma IndexOfChar(s: string, c: char)
    ensures var r := IndexOf(s, [c]);
            (r == -1 <==> c !in s)
            && (r >= 0 ==> r < |s| && s[r] == c && c !in s[..r])
  {
    var r := IndexOf(s, [c]);
    IndexFromFirst(s, [c], 0);
    forall i | 0 <= i < |s| {
      OccursAtChar(s, c, i);
    }
    if r >= 0 {
      OccursAtChar(s, c, r);
      forall i | 0 <= i < r ensures s[..r][i] != c {
        OccursAtChar(s, c, i);
      }
    } else {
      forall i | 0 <= i < |s| ensures s[i] != c {
        assert !OccursAt(s, [c], i);
      }
    }
  }

  /** `s.count(c)`: how many times the character `c` occurs in `s`. */
  function Count(s: string, c: char): nat {
    if s == [] then 0 else (if s[0] == c then 1 else 0) + Count(s[1..], c)
  }

  lemma {:induction false} CountPositive(s: string, c: char)
    ensures Count(s, c) > 0 <==> c in s
  {
    if s != [] {
      CountPositive(s[1..], c);
      assert c in s <==> s[0] == c || c in s[1..];
    }
  }

  lemma {:induction false} CountAppend(a: string, b: string, c: char)
    ensures Count(a + b, c) == Count(a, c) + Count(b, c)
  {
    if a == [] {
      assert a + b == b;
    } else {
      assert (a + b)[1..] == a[1..] + b;
      CountAppend(a[1..], b, c);
    }
  }

  // ---------------------------------------------------------------------
  // Python str.split(sep) and sep.join(parts) with a one-character separator

  /**
   * `s.split(c)`: the pieces of `s` between the occurrences of `c`, empty
   * pieces included; there is always at least one piece.
   */
  function Split(s: string, c: char): (r: seq<string>)
    ensures |r| >= 1
  {
    if s == [] then [[]]
    else
      var rest := Split(s[1..], c);
      if s[0] == c then [[]] + rest else [[s[0]] + rest[0]] + rest[1..]
  }

  /** `c.join(parts)`. */
  function Join(parts: seq<string>, c: char): string {
    if |parts| == 0 then []
    else if |parts| == 1 then parts[0]
    else parts[0] + [c] + Join(parts[1..], c)
  }

  /** There is one more piece than there are separators. */
  lemma {:induction false} SplitLength(s: string, c: char)
    ensures |Split(s, c)| == Count(s, c) + 1
  {
    if s != [] {
      SplitLength(s[1..], c);
    }
  }

  /** No piece contains the separator. */
  lemma {:induction false} SplitPiecesFree(s: string, c: char)
    ensures forall k | 0 <= k < |Split(s, c)| :: c !in Split(s, c)[k]
  {
    if s != [] {
      SplitPiecesFree(s[1..], c);
      var rest := Split(s[1..], c);
      if s[0] != c {
        assert c !in [s[0]] + rest[0];
      }
    }
  }

  /** Joining a piece in front of at least one other adds one separator. */
  lemma JoinCons(x: string, parts: seq<string>, c: char)
    requires |parts| >= 1
    ensures Join([x] + parts, c) == x + [c] + Join(parts, c)
  {
    assert ([x] + parts)[1..] == parts;
  }

  /** Extending the first piece by a character in front extends the join. */
  lemma JoinExtendHead(ch: char, parts: seq<string>, c: char)
    requires |parts| >= 1
    ensures Join([[ch] + parts[0]] + parts[1..], c) == [ch] + Join(parts, c)
  {
    if |parts| > 1 {
      JoinCons([ch] + parts[0], parts[1..], c);
      JoinCons(parts[0], parts[1..], c);
      assert parts == [parts[0]] + parts[1..];
    }
  }

  /** Joining the pieces with the separator gives back the string. */
  lemma {:induction false} JoinSplit(s: string, c: char)
    ensures Join(Split(s, c), c) == s
  {
    if s != [] {
      var rest := Split(s[1..], c);
      JoinSplit(s[1..], c);
      assert s == [s[0]] + s[1..];
      if s[0] == c {
        JoinCons([], rest, c);
      } else {
        JoinExtendHead(s[0], rest, c);
      }
    }
  }

  /** Splitting a join of separator-free pieces gives back the pieces. */
  lemma {:induction false} SplitJoin(parts: seq<string>, c: char)
    requires |parts| >= 1
    requires forall k | 0 <= k < |parts| :: c !in parts[k]
    ensures Split(Join(parts, c), c) == parts
  {
    if |parts| == 1 {
      SplitFree(parts[0], c);
    } else {
      SplitJoin(parts[1..], c);
      SplitPrefix(parts[0], Join(parts[1..], c), c);
      assert parts == [parts[0]] + parts[1..];
    }
  }

  /** A string without the separator is a single piece. */
  lemma {:induction false} SplitFree(s: string, c: char)
    requires c !in s
    ensures Split(s, c) == [s]
  {
    if s != [] {
      SplitFree(s[1..], c);
      assert s == [s[0]] + s[1..];
    }
  }

  /** The text before the first separator is the first piece. */
  lemma {:induction false} SplitPrefix(a: string, b: string, c: char)
    requires c !in a
    ensures Split(a + [c] + b, c) == [a] + Split(b, c)
  {
    if a == [] {
      assert a + [c] + b == [c] + b;
      assert ([c] + b)[1..] == b;
    } else {
      assert (a + [c] + b)[1..] == a[1..] + [c] + b;
      SplitPrefix(a[1..], b, c);
      assert a == [a[0]] + a[1..];
    }
  }

  /** With exactly one separator, `s.split(c)` is the text before and after it. */
  lemma SplitOnce(s: string, c: char)
    requires Count(s, c) == 1
    ensures var i := IndexOf(s, [c]);
            0 <= i < |s| && Split(s, c) == [s[..i], s[i + 1..]]
  {
    CountPositive(s, c);
    SplitFirst(s, c);
    var i := IndexOf(s, [c]);
    var a, b := s[..i], s[i + 1..];
    assert s == a + ([c] + b);
    assert Count([c] + b, c) == 1 + Count(b, c) by {
      assert ([c] + b)[1..] == b;
    }
    CountAppend(a, [c] + b, c);
    CountPositive(a, c);
    CountPositive(b, c);
    SplitFree(b, c);
  }

  /** The first piece of `s.split(c)` is the text before the first `c`. */
  lemma SplitFirst(s: string, c: char)
    requires c in s
    ensures var i := IndexOf(s, [c]);
            0 <= i < |s| && Split(s, c) == [s[..i]] + Split(s[i + 1..], c)
  {
    IndexOfChar(s, c);
    var i := IndexOf(s, [c]);
    assert s == s[..i] + [c] + s[i + 1..];
    SplitPrefix(s[..i], s[i + 1..], c);
  }

  // ---------------------------------------------------------------------
  // Java String.split(String) with a one-character, non-meta separator

  /** The list with its trailing empty strings removed. */
  function StripTrailingEmpty(parts: seq<string>): (r: seq<string>)
    ensures |r| <= |parts| && r == parts[..|r|]
    ensures |r| > 0 ==> r[|r| - 1] != []
    ensures forall k | |r| <= k < |parts| :: parts[k] == []
  {
    if |parts| == 0 then []
    else if parts[|parts| - 1] == [] then StripTrailingEmpty(parts[..|parts| - 1])
    else parts
  }

  /**
   * `s.split(String.valueOf(c))`: the input itself when `c` does not occur,
   * otherwise the pieces with trailing empty strings removed.
   */
  function JavaSplit(s: string, c: char): seq<string> {
    if c !in s then [s] else StripTrailingEmpty(Split(s, c))
  }

  // ---------------------------------------------------------------------
  // Case folding (ASCII)

  function LowerChar(ch: char): char {
    if 'A' <= ch <= 'Z' then (ch as int + 32) as char else ch
  }

  /** `s.lower()` / `s.toLowerCase()` on ASCII letters. */
  function Lower(s: string): (r: string)
    ensures |r| == |s|
    ensures forall i | 0 <= i < |s| :: r[i] == LowerChar(s[i])
  {
    seq(|s|, i requires 0 <= i < |s| => LowerChar(s[i]))
  }

  // ---------------------------------------------------------------------
  // Lines of a text file (platform line separator "\n")

  /**
   * The lines Python yields when iterating a file with content `s`, each
   * without its terminator: the last line need not be terminated, and
   * there is no line after a final terminator.
   */
  function Lines(s: string): seq<string> {
    if s == [] then []
    else
      var p := Split(s, '\n');
      if p[|p| - 1] == [] then p[..|p| - 1] else p
  }

  /** Each line followed by a terminator, as `print line` writes them. */
  function Unlines(ls: seq<string>): string {
    if ls == [] then [] else Unlines(ls[..|ls| - 1]) + ls[|ls| - 1] + "\n"
  }

  /** Printing one more line appends it with its newline. */
  lemma UnlinesSnoc(ls: seq<string>, x: string)
    ensures Unlines(ls + [x]) == Unlines(ls) + x + "\n"
  {
    assert (ls + [x])[..|ls|] == ls;
  }

  lemma {:induction false} JoinSnoc(parts: seq<string>, x: string, c: char)
    requires |parts| >= 1
    ensures Join(parts + [x], c) == Join(parts, c) + [c] + x
  {
    if |parts| == 1 {
      assert (parts + [x])[1..] == [x];
    } else {
      assert (parts + [x])[1..] == parts[1..] + [x];
      JoinSnoc(parts[1..], x, c);
    }
  }

  /** Terminating every line is joining them with one more, empty, line. */
  lemma {:induction false} UnlinesIsJoin(ls: seq<string>)
    ensures Unlines(ls) == Join(ls + [[]], '\n')
  {
    if ls != [] {
      var init := ls[..|ls| - 1];
      UnlinesIsJoin(init);
      assert ls == init + [ls[|ls| - 1]];
      if init == [] {
        assert ls + [[]] == [ls[0], []];
      } else {
        JoinSnoc(init, ls[|ls| - 1], '\n');
        JoinSnoc(init + [ls[|ls| - 1]], [], '\n');
        assert init + [[]] == init + [[]];
        JoinSnoc(init, [], '\n');
        assert ls + [[]] == init + [ls[|ls| - 1]] + [[]];
      }
    }
  }

  /** Reading back terminated lines gives the same lines. */
  lemma LinesUnlines(ls: seq<string>)
    requires forall k | 0 <= k < |ls| :: '\n' !in ls[k]
    ensures Lines(Unlines(ls)) == ls
  {
    UnlinesIsJoin(ls);
    var parts := ls + [[]];
    assert forall k | 0 <= k < |parts| :: '\n' !in parts[k] by {
      forall k | 0 <= k < |parts| ensures '\n' !in parts[k] {
        if k < |ls| { assert parts[k] == ls[k]; }
      }
    }
    SplitJoin(parts, '\n');
    if ls == [] {
      assert Unlines(ls) == [];
    } else {
      assert Unlines(ls) != [] by {
        assert |Unlines(ls)| >= 1;
      }
      assert parts[..|parts| - 1] == ls;
    }
  }

  /**
   * Writing back the lines of a file terminates the last line if it was
   * not, and changes nothing else.
   */
  lemma UnlinesLines(s: string)
    ensures Unlines(Lines(s)) == s + (if s != [] && s[|s| - 1] != '\n' then "\n" else [])
  {
    if s != [] {
      var p := Split(s, '\n');
      JoinSplit(s, '\n');
      if p[|p| - 1] == [] {
        var init := p[..|p| - 1];
        assert p == init + [[]];
        UnlinesIsJoin(init);
        assert Unlines(init) == s;
        assert |p| >= 2;
        assert s[|s| - 1] == '\n' by {
          JoinSnoc(init, [], '\n');
        }
      } else {
        UnlinesIsJoin(p);
        JoinSnoc(p, [], '\n');
        assert s[|s| - 1] != '\n' by {
          SplitPiecesFree(s, '\n');
          if |p| == 1 {
            assert s == p[0];
          } else {
            JoinSnoc(p[..|p| - 1], p[|p| - 1], '\n');
            assert p[..|p| - 1] + [p[|p| - 1]] == p;
          }
          assert p[|p| - 1] != [] && s[|s| - 1] == p[|p| - 1][|p[|p| - 1]| - 1];
        }
      }
    }
  }

  /** No line read from a file contains the terminator. */
  lemma LinesFree(s: string)
    ensures forall k | 0 <= k < |Lines(s)| :: '\n' !in Lines(s)[k]
  {
    if s != [] {
      SplitPiecesFree(s, '\n');
    }
  }

  // ---------------------------------------------------------------------
  // Decimal numbers

  predicate IsDigit(ch: char) {
    '0' <= ch <= '9'
  }

  predicate AllDigits(s: string) {
    forall i | 0 <= i < |s| :: IsDigit(s[i])
  }

  function DigitChar(d: nat): char
    requires d < 10
  {
    ('0' as int + d) as char
  }

  /** The value of a string of decimal digits (the empty string is 0). */
  function DigitsValue(s: string): nat
    requires AllDigits(s)
  {
    if s == [] then 0
    else DigitsValue(s[..|s| - 1]) * 10 + (s[|s| - 1] as int - '0' as int)
  }

  /** The shortest decimal rendering of `n`. */
  function NatToString(n: nat): (r: string)
    ensures |r| >= 1 && AllDigits(r)
  {
    if n < 10 then [DigitChar(n)] else NatToString(n / 10) + [DigitChar(n % 10)]
  }

  /** `String.valueOf(n)` / `str(n)`: a minus sign for negatives, then the digits. */
  function IntToString(n: int): string {
    if n < 0 then "-" + NatToString(-n) else NatToString(n)
  }

  const MIN_INT32: int := -0x8000_0000
  const MAX_INT32: int := 0x7fff_ffff

  /**
   * `Integer.valueOf(s)`: an optional sign, then one or more decimal digits,
   * whose value lies in the 32-bit range; anything else is a
   * NumberFormatException, here `None`.
   */
  function ParseJavaInt(s: string): (r: Option<int>)
    ensures r.Some? ==> MIN_INT32 <= r.value <= MAX_INT32
    ensures r.Some? ==> |s| >= 1 && AllDigits(if s[0] == '-' || s[0] == '+' then s[1..] else s)
  {
    if |s| == 0 then None
    else
      var signed := s[0] == '-' || s[0] == '+';
      var digits := if signed then s[1..] else s;
      if |digits| == 0 || !AllDigits(digits) then None
      else
        var v: int := if s[0] == '-' then 0 - DigitsValue(digits) as int else DigitsValue(digits);
        if MIN_INT32 <= v <= MAX_INT32 then Some(v) else None
  }

  lemma {:induction false} DigitsOfNat(n: nat)
    ensures DigitsValue(NatToString(n)) == n
  {
    var s := NatToString(n);
    if n < 10 {
      assert s[..|s| - 1] == [];
    } else {
      DigitsOfNat(n / 10);
      assert s[..|s| - 1] == NatToString(n / 10);
    }
  }

  /** Rendering a 32-bit integer and parsing it back yields the integer. */
  lemma ParseIntToString(n: int)
    requires MIN_INT32 <= n <= MAX_INT32
    ensures ParseJavaInt(IntToString(n)) == Some(n)
  {
    var s := IntToString(n);
    if n < 0 {
      DigitsOfNat(-n);
      assert s[0] == '-' && s[1..] == NatToString(-n);
    } else {
      DigitsOfNat(n);
      assert IsDigit(s[0]);
    }
  }

  // ---------------------------------------------------------------------
  // Lists

  /** `xs.remove(x)` when `x in xs`: drop the first occurrence of `x`. */
  function RemoveFirst(xs: seq<string>, x: string): seq<string> {
    if xs == [] then []
    else if xs[0] == x then xs[1..]
    else [xs[0]] + RemoveFirst(xs[1..], x)
  }

  /** `remove` drops exactly one copy of `x` when there is one, and nothing otherwise. */
  lemma {:induction false} RemoveFirstRemoves(xs: seq<string>, x: string)
    ensures x in xs ==> |RemoveFirst(xs, x)| == |xs| - 1
    ensures x !in xs ==> RemoveFirst(xs, x) == xs
    ensures multiset(RemoveFirst(xs, x)) == multiset(xs) - multiset{x}
  {
    if xs != [] {
      assert xs == [xs[0]] + xs[1..];
      RemoveFirstRemoves(xs[1..], x);
    }
  }

  /** Concatenation is associative; stated once so callers need not rediscover it. */
  lemma SeqAssoc<T>(x: seq<T>, y: seq<T>, z: seq<T>)
    ensures (x + y) + z == x + (y + z)
  {
  }

  /** Where each part of a three-part concatenation sits in it. */
  lemma ConcatParts<T>(x: seq<T>, y: seq<T>, z: seq<T>)
    ensures var s := x + y + z;
            s[..|x|] == x && s[|x|..|x| + |y|] == y && s[|x| + |y|..] == z
  {
  }
}
