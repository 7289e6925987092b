/** The parts of Go's `strings` package that the modelled code relies on. */
module Strings {

  /** unicode.IsSpace: the Latin-1 blanks and the Unicode White_Space characters. */
  predicate IsSpace(c: char) {
    var n := c as int;
    n == 32 || 9 <= n <= 13 || n == 0x85 || n == 0xA0 || n == 0x1680 || 0x2000 <= n <= 0x200A ||
    n == 0x2028 || n == 0x2029 || n == 0x202F || n == 0x205F || n == 0x3000
  }

  function TrimLeft(s: string): (r: string)
    ensures |r| <= |s| && r == s[|s| - |r|..]
    ensures r != "" ==> !IsSpace(r[0])
  {
    if s == "" then ""
    else if IsSpace(s[0]) then TrimLeft(s[1..])
    else s
  }

  function TrimRightSpace(s: string): (r: string)
    ensures |r| <= |s| && r == s[..|r|]
    ensures r != "" ==> !IsSpace(r[|r| - 1])
  {
    if s == "" then ""
    else if IsSpace(s[|s| - 1]) then TrimRightSpace(s[..|s| - 1])
    else s
  }

  /** strings.TrimSpace. */
  function TrimSpace(s: string): string {
    TrimRightSpace(TrimLeft(s))
  }

  /** strings.Contains: `pattern` occurs at `at`. */
  predicate OccursAt(s: string, pattern: string, at: nat) {
    at + |pattern| <= |s| && s[at..at + |pattern|] == pattern
  }

  predicate Contains(s: string, pattern: string) {
    exists at: nat | at <= |s| :: OccursAt(s, pattern, at)
  }

  function Digit(n: nat): char
    requires n < 10
  {
    ['0', '1', '2', '3', '4', '5', '6', '7', '8', '9'][n]
  }

  /** strconv.Itoa on a natural number. */
  function Itoa(n: nat): string {
    if n < 10 then [Digit(n)] else Itoa(n / 10) + [Digit(n % 10)]
  }

  lemma ThreeDigits(n: nat)
    requires 100 <= n < 1000
    ensures Itoa(n) == [Digit(n / 100), Digit(n / 10 % 10), Digit(n % 10)]
  {
    assert Itoa(n / 10 / 10) == [Digit(n / 100)];
    assert Itoa(n / 10) == Itoa(n / 10 / 10) + [Digit(n / 10 % 10)];
  }

  lemma TrimKeepsSubstring(s: string, pattern: string)
    requires Contains(TrimSpace(s), pattern)
    ensures Contains(s, pattern)
  {
    hide *;
    var t := TrimmedParts(s);
    var u := TrimSpace(s);
    assert t[0..|u|] == t[..|u|];
    PartContains(t, 0, |u|, pattern);
    assert s[|s| - |t|..|s|] == s[|s| - |t|..];
    PartContains(s, |s| - |t|, |s|, pattern);
  }

  lemma TrimmedParts(s: string) returns (t: string)
    ensures |t| <= |s| && t == s[|s| - |t|..]
    ensures |TrimSpace(s)| <= |t| && TrimSpace(s) == t[..|TrimSpace(s)|]
  {
    hide TrimLeft, TrimRightSpace, IsSpace;
    t := TrimLeft(s);
  }

  lemma PartContains(s: string, from: nat, to: nat, pattern: string)
    requires from <= to <= |s| && Contains(s[from..to], pattern)
    ensures Contains(s, pattern)
  {
    var part := s[from..to];
    var at: nat :| at <= |part| && OccursAt(part, pattern, at);
    assert at + |pattern| <= to - from;
    var there := s[from + at..from + at + |pattern|];
    assert |there| == |pattern| && forall k | 0 <= k < |pattern| :: there[k] == part[at..at + |pattern|][k];
    assert there == pattern;
    assert OccursAt(s, pattern, from + at);
  }

  lemma OccurrenceAt(s: string, pattern: string, at: nat)
    requires OccursAt(s, pattern, at)
    ensures forall i | 0 <= i < |pattern| :: s[at + i] == pattern[i]
  {
    forall i | 0 <= i < |pattern| ensures s[at + i] == pattern[i] {
      assert s[at..at + |pattern|][i] == s[at + i];
    }
  }

  lemma TrimTwice(s: string)
    ensures TrimSpace(TrimSpace(s)) == TrimSpace(s)
  {
    var t := TrimLeft(s);
    var u := TrimRightSpace(t);
    if u != "" { assert u[0] == t[0]; }
  }
}
