/** The string operations the client applies to user-visible text:
    `toLowerCase` (ASCII only), `includes`, `startsWith`, `replace` with a
    string pattern (first occurrence only) and the `/\b\w/g` upper-casing
    of word-initial characters. */
module Text {

  /** ASCII `toLowerCase` of one character. */
  function LowerChar(c: char): char {
    if 'A' <= c <= 'Z' then (c as int + 32) as char else c
  }

  /** ASCII `toUpperCase` of one character. */
  function UpperChar(c: char): char {
    if 'a' <= c <= 'z' then (c as int - 32) as char else c
  }

  /** `s.toLowerCase()`, restricted to ASCII letters. */
  function Lower(s: string): (r: string)
    ensures |r| == |s|
    ensures forall i :: 0 <= i < |s| ==> r[i] == LowerChar(s[i])
  {
    seq(|s|, i requires 0 <= i < |s| => LowerChar(s[i]))
  }

  /** `s.startsWith(p)`. */
  predicate StartsWith(s: string, p: string) {
    |p| <= |s| && s[..|p|] == p
  }

  /** `s.includes(q)`: `q` occurs in `s` at some offset. */
  predicate Includes(s: string, q: string)
    decreases |s|
  {
    StartsWith(s, q) || (s != [] && Includes(s[1..], q))
  }

  /** `q` occurs in `s` starting at offset `k`. */
  predicate OccursAt(s: string, q: string, k: int) {
    0 <= k <= |s| - |q| && s[k..k + |q|] == q
  }

  /** An occurrence past the first character is an occurrence in the tail,
      one place earlier. */
  lemma OccursAtShift(s: string, q: string, k: int)
    requires 0 < k && OccursAt(s, q, k)
    ensures OccursAt(s[1..], q, k - 1)
  {
    assert s[1..][k - 1..k - 1 + |q|] == s[k..k + |q|];
  }

  /** The recursive search agrees with the positional definition: `q`
      occurs at offset `k` for some `k`, in both directions. */
  lemma {:induction false} IncludesAt(s: string, q: string)
    ensures Includes(s, q) <==> exists k :: OccursAt(s, q, k)
    decreases |s|
  {
    if StartsWith(s, q) {
      assert OccursAt(s, q, 0);
    } else if s == [] {
    } else {
      IncludesAt(s[1..], q);
      if Includes(s[1..], q) {
        var k :| OccursAt(s[1..], q, k);
        assert s[1..][k..k + |q|] == s[k + 1..k + 1 + |q|];
        assert OccursAt(s, q, k + 1);
      } else {
        forall k | OccursAt(s, q, k) ensures false {
          if k > 0 {
            OccursAtShift(s, q, k);
          }
        }
      }
    }
  }

  /** Every string includes the empty string, so an empty search box
      matches everything. */
  lemma {:induction false} IncludesEmpty(s: string)
    ensures Includes(s, "")
  {
    assert StartsWith(s, "");
  }

  /** A string includes itself. */
  lemma IncludesSelf(s: string)
    ensures Includes(s, s)
  {
    assert StartsWith(s, s);
  }

  /** Case-insensitive containment as the client writes it:
      `s.toLowerCase().includes(q.toLowerCase())`. */
  predicate Matches(s: string, q: string) {
    Includes(Lower(s), Lower(q))
  }

  /** An empty query matches every string. */
  lemma MatchesEmpty(s: string)
    ensures Matches(s, "")
  {
    assert Lower("") == "";
    IncludesEmpty(Lower(s));
  }

  /** The first index of `c` in `s`, if any. */
  function IndexOf(s: string, c: char): (r: int)
    ensures -1 <= r < |s|
    ensures r == -1 <==> c !in s
    ensures r >= 0 ==> s[r] == c && c !in s[..r]
  {
    if s == [] then -1
    else if s[0] == c then 0
    else
      var k := IndexOf(s[1..], c);
      assert s[1..] == s[1..][..];
      if k == -1 then -1
      else
        assert s[..k + 1] == [s[0]] + s[1..][..k];
        k + 1
  }

  /** An occurrence with none before it is the one `IndexOf` finds. */
  lemma FirstOccurrence(s: string, c: char, k: nat)
    requires k < |s| && s[k] == c && c !in s[..k]
    ensures IndexOf(s, c) == k
  {
    assert c in s;
  }

  /** `s.replace(c, d)` with a one-character string pattern: only the
      first occurrence is replaced. */
  function ReplaceFirst(s: string, c: char, d: char): (r: string)
    ensures |r| == |s|
    ensures c !in s ==> r == s
    ensures c in s ==> var k := IndexOf(s, c); r == s[..k] + [d] + s[k + 1..]
  {
    var k := IndexOf(s, c);
    if k == -1 then s else s[..k] + [d] + s[k + 1..]
  }

  /** The regular-expression class `\w`. */
  predicate IsWordChar(c: char) {
    'a' <= c <= 'z' || 'A' <= c <= 'Z' || '0' <= c <= '9' || c == '_'
  }

  /** Position `i` of `s` is a `\b\w` match: a word character that starts
      the string or follows a non-word character. */
  predicate WordStart(s: string, i: int)
    requires 0 <= i < |s|
  {
    IsWordChar(s[i]) && (i == 0 || !IsWordChar(s[i - 1]))
  }

  /** `s.replace(/\b\w/g, c => c.toUpperCase())`. */
  function CapitalizeWords(s: string): (r: string)
    ensures |r| == |s|
    ensures forall i :: 0 <= i < |s| ==> r[i] == if WordStart(s, i) then UpperChar(s[i]) else s[i]
  {
    seq(|s|, i requires 0 <= i < |s| => if WordStart(s, i) then UpperChar(s[i]) else s[i])
  }

  /** `String(n)` for a natural number: its decimal digits. */
  function Decimal(n: nat): (r: string)
    ensures |r| >= 1
    ensures forall i :: 0 <= i < |r| ==> '0' <= r[i] <= '9'
    decreases n
  {
    var d := ['0' + (n % 10) as char];
    if n < 10 then d else Decimal(n / 10) + d
  }

  /** The decimal rendering is the number: reading the digits back gives n. */
  function DigitsValue(s: string): (v: nat)
    requires forall i :: 0 <= i < |s| ==> '0' <= s[i] <= '9'
  {
    if s == [] then 0 else DigitsValue(s[..|s| - 1]) * 10 + (s[|s| - 1] - '0') as int
  }

  lemma {:induction false} DecimalRoundTrip(n: nat)
    ensures DigitsValue(Decimal(n)) == n
    decreases n
  {
    var r := Decimal(n);
    if n >= 10 {
      DecimalRoundTrip(n / 10);
      assert r[..|r| - 1] == Decimal(n / 10);
    }
  }

  /** A non-empty run of lower-case ASCII letters. */
  predicate LowerWord(w: string) {
    |w| > 0 && forall i :: 0 <= i < |w| ==> 'a' <= w[i] <= 'z'
  }

  /** Capitalising a single lower-case word raises its first letter only. */
  lemma CapitalizeWord(w: string)
    requires LowerWord(w)
    ensures CapitalizeWords(w) == [UpperChar(w[0])] + w[1..]
  {
    var r := CapitalizeWords(w);
    var e := [UpperChar(w[0])] + w[1..];
    assert r[0] == e[0] by {
      assert WordStart(w, 0);
    }
    forall i | 0 < i < |w| ensures r[i] == e[i] {
      assert IsWordChar(w[i - 1]);
      assert !WordStart(w, i);
    }
    assert |r| == |e|;
  }

  /** Capitalising two lower-case words separated by a space raises the
      first letter of each. */
  lemma CapitalizeTwoWords(a: string, b: string)
    requires LowerWord(a) && LowerWord(b)
    ensures CapitalizeWords(a + " " + b) == CapitalizeWords(a) + " " + CapitalizeWords(b)
  {
    var s := a + " " + b;
    var r := CapitalizeWords(s);
    var ca := CapitalizeWords(a);
    var cb := CapitalizeWords(b);
    var e := ca + " " + cb;
    forall i | 0 <= i < |s| ensures r[i] == e[i] {
      if i < |a| {
        assert s[i] == a[i];
        assert e[i] == ca[i];
        assert i > 0 ==> s[i - 1] == a[i - 1];
      } else if i > |a| {
        var j := i - |a| - 1;
        assert s[i] == b[j];
        assert e[i] == cb[j];
        assert j > 0 ==> s[i - 1] == b[j - 1];
      }
    }
  }
}
