/** The few string operations the ingestion and pricing code relies on, over ASCII text. */
module Text {

  predicate IsSpace(c: char) {
    c == ' ' || 9 <= c as int <= 13
  }

  function TrimLeft(s: string): string {
    if s != "" && IsSpace(s[0]) then TrimLeft(s[1..]) else s
  }

  function TrimRight(s: string): string {
    if s != "" && IsSpace(s[|s| - 1]) then TrimRight(s[..|s| - 1]) else s
  }

  function TrimSpace(s: string): string {
    TrimRight(TrimLeft(s))
  }

  function LowerChar(c: char): char {
    if 'A' <= c <= 'Z' then (c as int + 32) as char else c
  }

  function ToLower(s: string): string {
    seq(|s|, i requires 0 <= i < |s| => LowerChar(s[i]))
  }

  /** Lower case without surrounding white space. */
  function Normalize(s: string): string {
    ToLower(TrimSpace(s))
  }

  predicate HasPrefix(s: string, prefix: string) {
    prefix <= s
  }

  predicate OccursAt(s: string, sub: string, i: int) {
    0 <= i <= |s| - |sub| && s[i..i + |sub|] == sub
  }

  predicate Contains(s: string, sub: string) {
    exists i | 0 <= i <= |s| - |sub| :: OccursAt(s, sub, i)
  }

  function WithoutDashes(s: string): string {
    if s == "" then "" else WithoutDashes(s[..|s| - 1]) + (if s[|s| - 1] == '-' then "" else [s[|s| - 1]])
  }

  ghost predicate Trimmed(s: string) {
    s != "" ==> !IsSpace(s[0]) && !IsSpace(s[|s| - 1])
  }

  lemma TrimLeftLeavesNoLeadingSpace(s: string)
    ensures TrimLeft(s) != "" ==> !IsSpace(TrimLeft(s)[0])
  {
  }

  lemma TrimRightKeepsPrefix(s: string)
    ensures TrimRight(s) <= s
    ensures TrimRight(s) != "" ==> !IsSpace(TrimRight(s)[|TrimRight(s)| - 1])
  {
  }

  /** Normalising text that is already normalised changes nothing. */
  lemma NormalizeIdempotent(s: string)
    ensures Normalize(Normalize(s)) == Normalize(s)
  {
    TrimLeftLeavesNoLeadingSpace(s);
    TrimRightKeepsPrefix(TrimLeft(s));
    var n := Normalize(s);
    assert Trimmed(n) by {
      assert Trimmed(TrimSpace(s));
    }
    assert TrimSpace(n) == n;
    assert ToLower(n) == n;
  }

  // ----- What normalising ignores -------------------------------------------

  predicate AllSpace(s: string) {
    forall c | c in s :: IsSpace(c)
  }

  /** The same text, some of its small letters written as capitals. */
  predicate Capitalises(s: string, lower: string) {
    |s| == |lower| && forall i | 0 <= i < |s| :: s[i] == lower[i] || ('a' <= lower[i] <= 'z' && s[i] as int + 32 == lower[i] as int)
  }

  predicate HasNoCapitals(s: string) {
    forall c | c in s :: !('A' <= c <= 'Z')
  }

  lemma {:induction false} TrimLeftStrips(left: string, s: string)
    requires AllSpace(left) && (s != "" ==> !IsSpace(s[0]))
    ensures TrimLeft(left + s) == s
  {
    if left == "" {
      assert left + s == s;
    } else {
      assert (left + s)[1..] == left[1..] + s;
      TrimLeftStrips(left[1..], s);
    }
  }

  lemma {:induction false} TrimRightStrips(s: string, right: string)
    requires AllSpace(right) && (s != "" ==> !IsSpace(s[|s| - 1]))
    ensures TrimRight(s + right) == s
  {
    if right == "" {
      assert s + right == s;
    } else {
      assert (s + right)[..|s + right| - 1] == s + right[..|right| - 1];
      TrimRightStrips(s, right[..|right| - 1]);
    }
  }

  /** White space around a text goes, and nothing else. */
  lemma TrimSpaceStrips(left: string, s: string, right: string)
    requires AllSpace(left) && AllSpace(right) && Trimmed(s)
    ensures TrimSpace(left + s + right) == s
  {
    if s == "" {
      assert left + s + right == (left + right) + "";
      TrimLeftStrips(left + right, "");
    } else {
      assert left + s + right == left + (s + right);
      TrimLeftStrips(left, s + right);
      TrimRightStrips(s, right);
    }
  }

  /** Case and surrounding white space are all that normalising ignores: a trimmed text without capitals is
      what any capitalised and padded version of it becomes. */
  lemma NormalizeIgnoresCaseAndSpace(left: string, s: string, right: string, lower: string)
    requires AllSpace(left) && AllSpace(right) && Trimmed(lower) && HasNoCapitals(lower) && Capitalises(s, lower)
    ensures Normalize(left + s + right) == lower
  {
    assert Trimmed(s);
    TrimSpaceStrips(left, s, right);
    forall i | 0 <= i < |s| ensures LowerChar(s[i]) == lower[i] {
      assert lower[i] in lower;
    }
  }

  lemma NormalizedText(s: string)
    ensures Trimmed(Normalize(s)) && HasNoCapitals(Normalize(s))
  {
    TrimLeftLeavesNoLeadingSpace(s);
    TrimRightKeepsPrefix(TrimLeft(s));
    assert Trimmed(TrimSpace(s));
  }

  /** Removing dashes leaves the other characters in place. */
  lemma {:induction false} WithoutDashesDropsDashes(a: string, b: string)
    ensures WithoutDashes(a + b) == WithoutDashes(a) + WithoutDashes(b)
    ensures '-' !in WithoutDashes(a)
  {
    if a != "" {
      WithoutDashesDropsDashes(a[..|a| - 1], "");
    }
    if b == "" {
      assert a + b == a;
    } else {
      assert (a + b)[..|a + b| - 1] == a + b[..|b| - 1];
      WithoutDashesDropsDashes(a, b[..|b| - 1]);
    }
  }

  lemma ContainsMeansFirstCharOccurs(s: string, sub: string)
    requires sub != "" && Contains(s, sub)
    ensures |sub| <= |s| && sub[0] in s
  {
    var i :| 0 <= i <= |s| - |sub| && OccursAt(s, sub, i);
    assert s[i] == s[i..i + |sub|][0];
  }
}
