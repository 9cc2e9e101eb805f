/** The string operations of ECMA-262 that the services rely on. */
module Text {

  /** WhiteSpace and LineTerminator of ECMA-262, sections 12.2 and 12.3: what `trim` removes. */
  predicate IsSpace(c: char) {
    '\t' <= c <= '\r' || c == ' ' || c == '\U{A0}' || c == '\U{1680}' || '\U{2000}' <= c <= '\U{200A}' ||
    c == '\U{2028}' || c == '\U{2029}' || c == '\U{202F}' || c == '\U{205F}' || c == '\U{3000}' || c == '\U{FEFF}'
  }

  function TrimStart(s: string): string {
    if s != [] && IsSpace(s[0]) then TrimStart(s[1..]) else s
  }

  function TrimEnd(s: string): string {
    if s != [] && IsSpace(s[|s| - 1]) then TrimEnd(s[..|s| - 1]) else s
  }

  function Trim(s: string): string {
    TrimEnd(TrimStart(s))
  }

  /** `t` is `s` without the white space at both ends. */
  ghost predicate TrimsTo(s: string, t: string) {
    exists i: nat, j: nat :: TrimsAt(s, t, i, j)
  }

  predicate TrimsAt(s: string, t: string, i: nat, j: nat) {
    && i <= j <= |s| && t == s[i..j]
    && (forall k | 0 <= k < |s| && !(i <= k < j) :: IsSpace(s[k]))
    && (i < j ==> !IsSpace(s[i]) && !IsSpace(s[j - 1]))
  }

  /** What is cut off both ends is white space, and what is left neither starts nor ends in it. */
  lemma {:induction false} TrimCuts(s: string) returns (i: nat, j: nat)
    ensures TrimsAt(s, Trim(s), i, j)
  {
    if s != [] && IsSpace(s[0]) {
      i, j := TrimCuts(s[1..]);
      assert s[1..][i..j] == s[i + 1..j + 1];
      assert forall k | 1 <= k < |s| :: s[k] == s[1..][k - 1];
      i, j := i + 1, j + 1;
    } else {
      i := 0;
      j := TrimEndCuts(s);
    }
  }

  lemma {:induction false} TrimEndCuts(s: string) returns (j: nat)
    ensures j <= |s| && TrimEnd(s) == s[..j]
    ensures forall k | j <= k < |s| :: IsSpace(s[k])
    ensures j > 0 ==> !IsSpace(s[j - 1])
  {
    if s != [] && IsSpace(s[|s| - 1]) {
      j := TrimEndCuts(s[..|s| - 1]);
      assert s[..|s| - 1][..j] == s[..j];
    } else {
      j := |s|;
      assert s[..j] == s;
    }
  }
}
