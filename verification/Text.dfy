/** The string operations the review pipeline relies on, and the facts about them
    that its keyword rules and its identifiers need. */
module Text {

  /** Lower-casing, one character at a time. */
  function LowerChar(c: char): char {
    if 'A' <= c <= 'Z' then (c as int + 32) as char else c
  }

  function Lower(s: string): (r: string)
    ensures |r| == |s|
  {
    seq(|s|, i requires 0 <= i < |s| => LowerChar(s[i]))
  }

  lemma LowerConcat(a: string, b: string)
    ensures Lower(a + b) == Lower(a) + Lower(b)
  {
  }

  predicate OccursAt(s: string, t: string, i: int) {
    0 <= i <= |s| - |t| && s[i..i + |t|] == t
  }

  /** True iff `t` is a substring of `s`. */
  predicate Contains(s: string, t: string) {
    exists i :: 0 <= i <= |s| - |t| && OccursAt(s, t, i)
  }

  lemma ContainsInConcat(x: string, s: string, y: string, t: string)
    requires Contains(s, t)
    ensures Contains(x + s + y, t)
  {
    var i :| 0 <= i <= |s| - |t| && OccursAt(s, t, i);
    var w := x + s + y;
    assert w[|x| + i..|x| + i + |t|] == s[i..i + |t|];
    assert OccursAt(w, t, |x| + i);
  }

  lemma OccurrenceCovers(s: string, t: string, i: int, p: nat)
    requires OccursAt(s, t, i) && p < |s|
    ensures i <= p < i + |t| ==> s[p] in t
  {
    if i <= p < i + |t| {
      assert s[i..i + |t|][p - i] == s[p];
    }
  }

  /** A token without a space cannot straddle a separating space. */
  lemma ContainsAcrossSpace(a: string, b: string, t: string)
    requires t != "" && ' ' !in t
    ensures Contains(a + " " + b, t) <==> Contains(a, t) || Contains(b, t)
  {
    var w := a + " " + b;
    if Contains(w, t) {
      var i :| 0 <= i <= |w| - |t| && OccursAt(w, t, i);
      assert w[|a|] == ' ';
      OccurrenceCovers(w, t, i, |a|);
      if i + |t| <= |a| {
        assert a[i..i + |t|] == w[i..i + |t|];
        assert OccursAt(a, t, i);
      } else {
        var j := i - |a| - 1;
        assert b[j..j + |t|] == w[i..i + |t|];
        assert OccursAt(b, t, j);
      }
    }
    if Contains(a, t) {
      ContainsInConcat("", a, " " + b, t);
      assert "" + a + (" " + b) == w;
    }
    if Contains(b, t) {
      ContainsInConcat(a + " ", b, "", t);
      assert a + " " + b + "" == w;
    }
  }

  function Join(parts: seq<string>, sep: string): string {
    if |parts| == 0 then ""
    else if |parts| == 1 then parts[0]
    else parts[0] + sep + Join(parts[1..], sep)
  }

  /** Keyword search in a joined scope is keyword search in the parts. */
  lemma {:induction false} TokenInJoin(parts: seq<string>, t: string)
    requires t != "" && ' ' !in t
    ensures Contains(Lower(Join(parts, " ")), t) <==> exists i :: 0 <= i < |parts| && Contains(Lower(parts[i]), t)
  {
    if |parts| == 0 {
      assert Lower("") == "";
    } else if |parts| > 1 {
      var rest := parts[1..];
      TokenInJoin(rest, t);
      LowerConcat(parts[0] + " ", Join(rest, " "));
      LowerConcat(parts[0], " ");
      assert Lower(" ") == " ";
      ContainsAcrossSpace(Lower(parts[0]), Lower(Join(rest, " ")), t);
      assert forall i :: 0 <= i < |rest| ==> rest[i] == parts[i + 1];
      if i :| 0 <= i < |parts| && Contains(Lower(parts[i]), t) {
        assert i > 0 ==> rest[i - 1] == parts[i];
      }
    }
  }

  /** A keyword of a part survives being embedded in a larger text. */
  lemma TokenEmbedded(x: string, s: string, y: string, t: string)
    requires Contains(Lower(s), t)
    ensures Contains(Lower(x + s + y), t)
  {
    LowerConcat(x + s, y);
    LowerConcat(x, s);
    ContainsInConcat(Lower(x), Lower(s), Lower(y), t);
  }

  predicate IsSpace(c: char) {
    c == ' ' || c == '\t' || c == '\n' || c == '\r' || c == '\U{0B}' || c == '\U{0C}' || c == '\U{85}' || c == '\U{A0}'
  }

  function TrimLeft(s: string): (r: string)
    ensures r == "" || !IsSpace(r[0])
  {
    if s != "" && IsSpace(s[0]) then TrimLeft(s[1..]) else s
  }

  function TrimRight(s: string): (r: string)
    ensures r == "" || !IsSpace(r[|r| - 1])
    ensures r <= s
  {
    if s != "" && IsSpace(s[|s| - 1]) then TrimRight(s[..|s| - 1]) else s
  }

  predicate IsTrimmed(s: string) {
    s == "" || (!IsSpace(s[0]) && !IsSpace(s[|s| - 1]))
  }

  function Trim(s: string): (r: string)
    ensures IsTrimmed(r)
    ensures IsTrimmed(s) ==> r == s
  {
    TrimRight(TrimLeft(s))
  }

  predicate AllSpace(s: string) {
    forall i :: 0 <= i < |s| ==> IsSpace(s[i])
  }

  lemma {:induction false} TrimLeftDrops(s: string) returns (pre: string)
    ensures s == pre + TrimLeft(s) && AllSpace(pre)
  {
    if s == "" || !IsSpace(s[0]) {
      pre := "";
    } else {
      pre := TrimLeftDrops(s[1..]);
      pre := [s[0]] + pre;
    }
  }

  lemma {:induction false} TrimRightDrops(s: string) returns (post: string)
    ensures s == TrimRight(s) + post && AllSpace(post)
  {
    if s == "" || !IsSpace(s[|s| - 1]) {
      post := "";
    } else {
      post := TrimRightDrops(s[..|s| - 1]);
      post := post + [s[|s| - 1]];
    }
  }

  /** Trimming takes space off both ends and nothing else. */
  lemma TrimDrops(s: string) returns (pre: string, post: string)
    ensures s == pre + Trim(s) + post && AllSpace(pre) && AllSpace(post)
  {
    pre := TrimLeftDrops(s);
    post := TrimRightDrops(TrimLeft(s));
    assert s == pre + (Trim(s) + post);
  }

  /** Nothing is left of a text exactly when it is all space. */
  lemma TrimmedAwayIff(s: string)
    ensures Trim(s) == "" <==> AllSpace(s)
  {
    hide Trim;
    var pre, post := TrimDrops(s);
    if Trim(s) != "" {
      assert s[|pre|] == Trim(s)[0];
    }
  }

  predicate IsDigit(c: char) { '0' <= c <= '9' }

  function Digit(d: nat): (c: char)
    requires d < 10
    ensures IsDigit(c) && c as int == '0' as int + d
  {
    ('0' as int + d) as char
  }

  /** Decimal printing of a natural number. */
  function Decimal(n: nat): (s: string)
    ensures s != "" && forall c :: c in s ==> IsDigit(c)
    ensures |s| == 1 <==> n < 10
  {
    if n < 10 then [Digit(n)] else Decimal(n / 10) + [Digit(n % 10)]
  }

  lemma {:induction false} DecimalInjective(m: nat, n: nat)
    requires Decimal(m) == Decimal(n)
    ensures m == n
  {
    var a, b := Decimal(m), Decimal(n);
    assert a[|a| - 1] == Digit(m % 10) && b[|b| - 1] == Digit(n % 10);
    if m < 10 || n < 10 {
    } else {
      assert a[..|a| - 1] == Decimal(m / 10);
      assert b[..|b| - 1] == Decimal(n / 10);
      DecimalInjective(m / 10, n / 10);
    }
  }

  /** The identifier printed for the counter value reached after `n` earlier ones. */
  function NextId(prefix: string, n: nat): string {
    prefix + "_" + Decimal(n + 1)
  }

  function UntilUnderscore(s: string): string {
    if s == "" || s[0] == '_' then "" else [s[0]] + UntilUnderscore(s[1..])
  }

  lemma {:induction false} PrefixRecovered(p: string, rest: string)
    requires '_' !in p
    ensures UntilUnderscore(p + "_" + rest) == p
  {
    if p == "" {
      assert p + "_" + rest == "_" + rest;
    } else {
      assert (p + "_" + rest)[1..] == p[1..] + "_" + rest;
      PrefixRecovered(p[1..], rest);
    }
  }

  /** No two draws of the counter print alike, whatever their prefixes. */
  lemma NextIdInjective(p: string, m: nat, q: string, n: nat)
    requires '_' !in p && '_' !in q
    requires NextId(p, m) == NextId(q, n)
    ensures p == q && m == n
  {
    PrefixRecovered(p, Decimal(m + 1));
    PrefixRecovered(q, Decimal(n + 1));
    assert Decimal(m + 1) == NextId(p, m)[|p| + 1..];
    assert Decimal(n + 1) == NextId(q, n)[|q| + 1..];
    DecimalInjective(m + 1, n + 1);
  }
}
