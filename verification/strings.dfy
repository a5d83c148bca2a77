/** String operations the commands' renderings and templates rely on: Go's
    `strings.Repeat(" ", n)`, `strings.HasSuffix`, `strings.Split`,
    `strings.ReplaceAll` and `%d` formatting, each with the property that pins
    it down. */
module Strings {

  /** `strings.Repeat(" ", n)`. A negative count makes Go panic, hence `nat`. */
  function Spaces(n: nat): (s: string)
    ensures |s| == n
    ensures forall i | 0 <= i < n :: s[i] == ' '
  {
    if n == 0 then "" else " " + Spaces(n - 1)
  }

  /** The `PrettyPrint` shape shared by most commands: `indentation` spaces, then the line. */
  function Indent(n: nat, line: string): (s: string)
    ensures |s| == n + |line| && s[n..] == line
    ensures forall i | 0 <= i < n :: s[i] == ' '
  {
    Spaces(n) + line
  }

  /** Reads an indented line back: its depth and the text after the leading spaces. */
  function StripIndent(s: string): (r: (nat, string))
    ensures r.0 <= |s| && r.1 == s[r.0..]
    ensures forall i | 0 <= i < r.0 :: s[i] == ' '
    ensures r.1 == [] || r.1[0] != ' '
  {
    if |s| > 0 && s[0] == ' ' then
      var (n, rest) := StripIndent(s[1..]);
      (n + 1, rest)
    else
      (0, s)
  }

  /** Indenting a line that does not itself start with a space can be undone exactly. */
  lemma IndentRoundTrip(n: nat, line: string)
    requires line == [] || line[0] != ' '
    ensures StripIndent(Indent(n, line)) == (n, line)
  {
  }

  predicate HasSuffix(s: string, suffix: string) {
    |suffix| <= |s| && s[|s| - |suffix|..] == suffix
  }

  /** `pat` occurs in `s` at position `i`. */
  predicate OccursAt(s: string, pat: string, i: int) {
    0 <= i && i + |pat| <= |s| && s[i..i + |pat|] == pat
  }

  predicate Contains(s: string, pat: string) {
    exists i | 0 <= i <= |s| :: OccursAt(s, pat, i)
  }

  /** `strings.Split`: the pieces between the leftmost non-overlapping occurrences of `sep`. */
  function Split(s: string, sep: string): (parts: seq<string>)
    requires sep != []
    ensures |parts| >= 1
    decreases |s|
  {
    if |s| < |sep| then [s]
    else if s[..|sep|] == sep then [[]] + Split(s[|sep|..], sep)
    else
      var rest := Split(s[1..], sep);
      [[s[0]] + rest[0]] + rest[1..]
  }

  /** `strings.Join`: the pieces with `sep` between consecutive ones. */
  function JoinWith(parts: seq<string>, sep: string): string
    requires |parts| >= 1
  {
    if |parts| == 1 then parts[0] else parts[0] + sep + JoinWith(parts[1..], sep)
  }

  lemma JoinWithCons(c: char, parts: seq<string>, sep: string)
    requires |parts| >= 1
    ensures JoinWith([[c] + parts[0]] + parts[1..], sep) == [c] + JoinWith(parts, sep)
  {
    var ps := [[c] + parts[0]] + parts[1..];
    assert ps[1..] == parts[1..];
  }

  /** Splitting and joining with the same separator gives back the string. */
  lemma {:induction false} JoinSplit(s: string, sep: string)
    requires sep != []
    ensures JoinWith(Split(s, sep), sep) == s
    decreases |s|
  {
    if |s| < |sep| {
    } else if s[..|sep|] == sep {
      JoinSplit(s[|sep|..], sep);
      var ps := [[]] + Split(s[|sep|..], sep);
      assert ps[1..] == Split(s[|sep|..], sep);
      assert s == s[..|sep|] + s[|sep|..];
    } else {
      var rest := Split(s[1..], sep);
      JoinSplit(s[1..], sep);
      JoinWithCons(s[0], rest, sep);
      assert s == [s[0]] + s[1..];
    }
  }

  /** No piece of a split holds the separator: every occurrence was cut out. */
  lemma {:induction false} SplitPiecesFree(s: string, sep: string)
    requires sep != []
    ensures forall k | 0 <= k < |Split(s, sep)| :: !Contains(Split(s, sep)[k], sep)
    decreases |s|
  {
    var parts := Split(s, sep);
    if |s| < |sep| {
      assert parts == [s];
      TooShortIsFree(s, sep);
    } else if s[..|sep|] == sep {
      SplitPiecesFree(s[|sep|..], sep);
      var tail := Split(s[|sep|..], sep);
      assert parts == [[]] + tail;
      TooShortIsFree([], sep);
      assert forall k | 1 <= k < |parts| :: parts[k] == tail[k - 1];
    } else {
      var rest := Split(s[1..], sep);
      SplitPiecesFree(s[1..], sep);
      assert parts == [[s[0]] + rest[0]] + rest[1..];
      HeadPieceFree(s, sep);
      assert forall k | 1 <= k < |parts| :: parts[k] == rest[k];
    }
  }

  lemma TooShortIsFree(s: string, sep: string)
    requires |s| < |sep|
    ensures !Contains(s, sep)
  {
  }

  /** The first piece, when the string does not start with the separator. */
  lemma HeadPieceFree(s: string, sep: string)
    requires sep != [] && |s| >= |sep| && s[..|sep|] != sep
    requires !Contains(Split(s[1..], sep)[0], sep)
    ensures !Contains([s[0]] + Split(s[1..], sep)[0], sep)
  {
    SplitHeadPrefix(s[1..], sep);
    ExtendedPieceFree(s, Split(s[1..], sep)[0], sep);
  }

  lemma ExtendedPieceFree(s: string, r0: string, sep: string)
    requires |s| >= |sep| && s[..|sep|] != sep
    requires |r0| < |s| && s[1..][..|r0|] == r0
    requires !Contains(r0, sep)
    ensures !Contains([s[0]] + r0, sep)
  {
    var head := [s[0]] + r0;
    assert head == s[..1 + |r0|];
    forall i | 0 <= i <= |head| ensures !OccursAt(head, sep, i) {
      if i == 0 {
        NotAtStart(s, head, sep);
      } else if OccursAt(head, sep, i) {
        ShiftedOccurrence(s[0], r0, sep, i);
      }
    }
  }

  lemma NotAtStart(s: string, head: string, sep: string)
    requires |sep| <= |s| && s[..|sep|] != sep
    requires |head| <= |s| && head == s[..|head|]
    ensures !OccursAt(head, sep, 0)
  {
    if |sep| <= |head| {
      assert head[..|sep|] == s[..|sep|];
    }
  }

  lemma ShiftedOccurrence(c: char, t: string, sep: string, i: int)
    requires 1 <= i
    requires OccursAt([c] + t, sep, i)
    ensures OccursAt(t, sep, i - 1)
  {
    assert ([c] + t)[i..i + |sep|] == t[i - 1..i - 1 + |sep|];
  }

  /** The first piece of a split is a prefix of the string. */
  lemma {:induction false} SplitHeadPrefix(s: string, sep: string)
    requires sep != []
    ensures |Split(s, sep)[0]| <= |s| && s[..|Split(s, sep)[0]|] == Split(s, sep)[0]
    decreases |s|
  {
    if |s| < |sep| {
    } else if s[..|sep|] == sep {
    } else {
      SplitHeadPrefix(s[1..], sep);
    }
  }

  /** The first piece starts the joined string. */
  lemma HeadIsPrefix(parts: seq<string>, sep: string)
    requires |parts| >= 1
    ensures |parts[0]| <= |JoinWith(parts, sep)|
    ensures JoinWith(parts, sep)[..|parts[0]|] == parts[0]
  {
  }

  /** Splitting a join on a one-character separator that no piece holds gives the pieces back. */
  lemma {:induction false} SplitJoin(parts: seq<string>, c: char)
    requires |parts| >= 1
    requires forall k | 0 <= k < |parts| :: c !in parts[k]
    ensures Split(JoinWith(parts, [c]), [c]) == parts
    decreases |parts|, |parts[0]|
  {
    var s := JoinWith(parts, [c]);
    if |parts[0]| == 0 {
      if |parts| == 1 {
      } else {
        assert s == [c] + JoinWith(parts[1..], [c]);
        assert s[..1] == [c];
        assert s[1..] == JoinWith(parts[1..], [c]);
        SplitJoin(parts[1..], c);
        assert parts == [[]] + parts[1..];
      }
    } else {
      var p0 := parts[0];
      var shorter := [p0[1..]] + parts[1..];
      assert shorter[1..] == parts[1..];
      assert forall k | 0 <= k < |shorter| :: c !in shorter[k] by {
        forall k | 0 <= k < |shorter| ensures c !in shorter[k] {
          if k == 0 {
            assert forall j | 0 <= j < |p0[1..]| :: p0[1..][j] == p0[j + 1];
          } else {
            assert shorter[k] == parts[k];
          }
        }
      }
      SplitJoin(shorter, c);
      JoinWithCons(p0[0], shorter, [c]);
      assert [p0[0]] + p0[1..] == p0;
      assert [[p0[0]] + shorter[0]] + shorter[1..] == parts;
      assert s == [p0[0]] + JoinWith(shorter, [c]);
      assert s[0] == p0[0] != c;
      assert s[..1] != [c];
      assert s[1..] == JoinWith(shorter, [c]);
    }
  }

  /** Go's `strings.ReplaceAll(s, "", rep)`: `rep` before every character and at the end. */
  function InsertEverywhere(s: string, rep: string): (r: string)
    ensures |r| == |s| + (|s| + 1) * |rep|
  {
    if s == [] then rep else rep + [s[0]] + InsertEverywhere(s[1..], rep)
  }

  /** `strings.ReplaceAll`: every leftmost non-overlapping occurrence of `pat` becomes `rep`. */
  function ReplaceAll(s: string, pat: string, rep: string): string
    decreases |s|
  {
    if pat == [] then InsertEverywhere(s, rep)
    else if |s| < |pat| then s
    else if s[..|pat|] == pat then rep + ReplaceAll(s[|pat|..], pat, rep)
    else [s[0]] + ReplaceAll(s[1..], pat, rep)
  }

  /** Replacing is splitting on the pattern and joining with the replacement, so
      together with JoinSplit and SplitPiecesFree: the pieces between occurrences
      are kept as they are and every occurrence is replaced. */
  lemma {:induction false} ReplaceAllIsSplitJoin(s: string, pat: string, rep: string)
    requires pat != []
    ensures ReplaceAll(s, pat, rep) == JoinWith(Split(s, pat), rep)
    decreases |s|
  {
    if |s| < |pat| {
    } else if s[..|pat|] == pat {
      ReplaceAllIsSplitJoin(s[|pat|..], pat, rep);
      var ps := [[]] + Split(s[|pat|..], pat);
      assert ps[1..] == Split(s[|pat|..], pat);
    } else {
      ReplaceAllIsSplitJoin(s[1..], pat, rep);
      JoinWithCons(s[0], Split(s[1..], pat), rep);
    }
  }

  /** `%d` of a natural number. */
  function NatToString(n: nat): (s: string)
    ensures |s| >= 1
    ensures forall i | 0 <= i < |s| :: '0' <= s[i] <= '9'
  {
    if n < 10 then [DigitChar(n)] else NatToString(n / 10) + [DigitChar(n % 10)]
  }

  function DigitChar(d: nat): (c: char)
    requires d < 10
    ensures '0' <= c <= '9' && (c as int) - ('0' as int) == d
  {
    (('0' as int) + d) as char
  }

  /** Reads a decimal numeral back. */
  function ParseNat(s: string): nat
    requires forall i | 0 <= i < |s| :: '0' <= s[i] <= '9'
  {
    if s == [] then 0 else ParseNat(s[..|s| - 1]) * 10 + ((s[|s| - 1] as int) - ('0' as int))
  }

  lemma {:induction false} ParseNatToString(n: nat)
    ensures ParseNat(NatToString(n)) == n
  {
    var s := NatToString(n);
    if n >= 10 {
      ParseNatToString(n / 10);
      assert s[..|s| - 1] == NatToString(n / 10);
    }
  }
}
