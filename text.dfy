/** String helpers shared by the model: ASCII case folding, the character
    classes Python's `split()`, `isalpha()` and the regex `\w` use, splitting a
    string into maximal runs, joining, decimal rendering and code-point order. */
module Text {

  predicate IsUpper(c: char) { 'A' <= c <= 'Z' }
  predicate IsLetter(c: char) { 'a' <= c <= 'z' || 'A' <= c <= 'Z' }
  predicate IsDigit(c: char) { '0' <= c <= '9' }

  /** `\w`: letters, digits and the underscore. */
  predicate IsWordChar(c: char) { IsLetter(c) || IsDigit(c) || c == '_' }

  /** The characters `str.split()` with no argument treats as separators. */
  predicate IsSpace(c: char) {
    c == ' ' || c == '\t' || c == '\n' || c == '\r' || c == '\U{B}' || c == '\U{C}'
    || ('\U{1C}' <= c <= '\U{1F}')
  }

  predicate NotSpace(c: char) { !IsSpace(c) }

  function LowerChar(c: char): (r: char)
    ensures !IsUpper(r)
    ensures IsLetter(c) <==> IsLetter(r)
    ensures IsWordChar(c) <==> IsWordChar(r)
    ensures !IsUpper(c) ==> r == c
  {
    if IsUpper(c) then (c as int + 32) as char else c
  }

  /** `str.lower()` on the ASCII range. */
  function Lower(s: string): (r: string)
    ensures |r| == |s|
    ensures forall i :: 0 <= i < |s| ==> r[i] == LowerChar(s[i])
  {
    seq(|s|, i requires 0 <= i < |s| => LowerChar(s[i]))
  }

  predicate NoUpper(s: string) { forall c :: c in s ==> !IsUpper(c) }

  /** `str.isalpha()`: non-empty and letters only. */
  predicate IsAlpha(s: string) { s != [] && forall c :: c in s ==> IsLetter(c) }

  /** The characters of `s` that satisfy `keep`, in order. */
  function Filter(s: string, keep: char -> bool): (r: string)
    ensures forall c :: c in r ==> c in s && keep(c)
  {
    if s == [] then [] else (if keep(s[0]) then [s[0]] else []) + Filter(s[1..], keep)
  }

  function Concat(ts: seq<string>): string {
    if ts == [] then [] else ts[0] + Concat(ts[1..])
  }

  lemma {:induction false} ConcatAppend(a: seq<string>, b: seq<string>)
    ensures Concat(a + b) == Concat(a) + Concat(b)
  {
    if a == [] {
      assert a + b == b;
    } else {
      assert (a + b)[1..] == a[1..] + b;
      ConcatAppend(a[1..], b);
    }
  }

  function Flush(cur: string): seq<string> {
    if cur == [] then [] else [cur]
  }

  /** The maximal runs of characters satisfying `keep`, scanning `s` with the
      run `cur` still open: what `re.findall` with a one-class `+` pattern and
      `str.split()` both compute. */
  function Runs(s: string, cur: string, keep: char -> bool): seq<string>
    decreases |s|
  {
    if s == [] then Flush(cur)
    else if keep(s[0]) then Runs(s[1..], cur + [s[0]], keep)
    else Flush(cur) + Runs(s[1..], [], keep)
  }

  /** Every run is non-empty and made only of `keep` characters drawn from
      the input. */
  lemma {:induction false} RunsChars(s: string, cur: string, keep: char -> bool)
    requires forall c :: c in cur ==> keep(c)
    ensures forall t :: t in Runs(s, cur, keep) ==> t != [] && forall c :: c in t ==> keep(c) && (c in cur || c in s)
    decreases |s|
  {
    if s == [] {
    } else if keep(s[0]) {
      RunsChars(s[1..], cur + [s[0]], keep);
      assert Runs(s, cur, keep) == Runs(s[1..], cur + [s[0]], keep);
      forall t | t in Runs(s, cur, keep)
        ensures t != [] && forall c :: c in t ==> keep(c) && (c in cur || c in s)
      {
        forall c | c in t ensures keep(c) && (c in cur || c in s) {
          assert c in cur + [s[0]] || c in s[1..];
        }
      }
    } else {
      RunsChars(s[1..], [], keep);
      assert forall t :: t in Flush(cur) ==> t == cur;
    }
  }

  /** The runs together are exactly the kept characters, in order. */
  lemma {:induction false} RunsConcat(s: string, cur: string, keep: char -> bool)
    ensures Concat(Runs(s, cur, keep)) == cur + Filter(s, keep)
    decreases |s|
  {
    if s == [] {
    } else if keep(s[0]) {
      assert Runs(s, cur, keep) == Runs(s[1..], cur + [s[0]], keep);
      assert Filter(s, keep) == [s[0]] + Filter(s[1..], keep);
      RunsConcat(s[1..], cur + [s[0]], keep);
      assert cur + [s[0]] + Filter(s[1..], keep) == cur + Filter(s, keep);
    } else {
      assert Runs(s, cur, keep) == Flush(cur) + Runs(s[1..], [], keep);
      assert Filter(s, keep) == Filter(s[1..], keep);
      RunsConcat(s[1..], [], keep);
      ConcatAppend(Flush(cur), Runs(s[1..], [], keep));
      assert Concat(Flush(cur)) == cur;
    }
  }

  /** A stretch of kept characters extends the open run and closes nothing. */
  lemma {:induction false} RunsAllKept(s: string, cur: string, keep: char -> bool)
    requires forall c :: c in s ==> keep(c)
    ensures Runs(s, cur, keep) == Flush(cur + s)
    decreases |s|
  {
    if s == [] {
      assert cur + s == cur;
    } else {
      assert s[0] in s;
      assert forall c :: c in s[1..] ==> c in s;
      RunsAllKept(s[1..], cur + [s[0]], keep);
      assert cur + [s[0]] + s[1..] == cur + s;
    }
  }

  /** A character that is not kept ends the run: the runs of `a + [c] + b`
      are those of `a` followed by those of `b`, none spanning `c`. */
  lemma {:induction false} RunsSplit(a: string, c: char, b: string, cur: string, keep: char -> bool)
    requires !keep(c)
    ensures Runs(a + [c] + b, cur, keep) == Runs(a, cur, keep) + Runs(b, [], keep)
    decreases |a|
  {
    var s := a + [c] + b;
    if a == [] {
      assert s[0] == c && s[1..] == b;
    } else {
      assert s[0] == a[0] && s[1..] == a[1..] + [c] + b;
      if keep(a[0]) {
        RunsSplit(a[1..], c, b, cur + [a[0]], keep);
      } else {
        RunsSplit(a[1..], c, b, [], keep);
      }
    }
  }

  /** `s.split()`: the maximal runs of non-whitespace characters. */
  function Words(s: string): seq<string> {
    Runs(s, [], NotSpace)
  }

  /** `sep.join(parts)`. */
  function Join(parts: seq<string>, sep: string): string {
    if parts == [] then []
    else if |parts| == 1 then parts[0]
    else parts[0] + sep + Join(parts[1..], sep)
  }

  /** `a in s` for strings: `a` occurs in `s` as a contiguous piece. */
  ghost predicate IsInfix(a: string, s: string) {
    exists i: nat :: InfixAt(a, s, i)
  }

  /** `a` occurs in `s` starting at index `i`. */
  predicate InfixAt(a: string, s: string, i: nat) {
    i + |a| <= |s| && s[i..i + |a|] == a
  }

  lemma InfixOf(p: string, a: string, q: string)
    ensures IsInfix(a, p + a + q)
  {
    var s := p + a + q;
    assert s[|p|..|p| + |a|] == a;
    assert InfixAt(a, s, |p|);
  }

  lemma ConcatRegroup(a: string, b: string, c: string, d: string, e: string)
    ensures a + b + (c + d + e) == a + b + c + d + e
  {
  }

  lemma ConcatAssoc(a: string, b: string, c: string, d: string)
    ensures a + b + (c + d) == a + b + c + d
  {
  }

  lemma InfixTransitive(a: string, b: string, c: string)
    requires IsInfix(a, b) && IsInfix(b, c)
    ensures IsInfix(a, c)
  {
    var i: nat :| InfixAt(a, b, i);
    var j: nat :| InfixAt(b, c, j);
    forall t | 0 <= t < |a| ensures c[j + i + t] == a[t] {
      assert c[j..j + |b|][i + t] == b[i + t];
      assert b[i..i + |a|][t] == b[i + t];
    }
    assert c[j + i..j + i + |a|] == a;
    assert InfixAt(a, c, j + i);
  }

  /** Every part is found in the joined string. */
  lemma {:induction false} JoinInfix(parts: seq<string>, sep: string, i: nat)
    requires i < |parts|
    ensures IsInfix(parts[i], Join(parts, sep))
  {
    if |parts| == 1 {
      InfixOf([], parts[0], []);
      assert [] + parts[0] + [] == parts[0];
    } else if i == 0 {
      InfixOf([], parts[0], sep + Join(parts[1..], sep));
      assert [] + parts[0] + (sep + Join(parts[1..], sep)) == Join(parts, sep);
    } else {
      JoinInfix(parts[1..], sep, i - 1);
      InfixOf(parts[0] + sep, Join(parts[1..], sep), []);
      assert parts[0] + sep + Join(parts[1..], sep) + [] == Join(parts, sep);
      InfixTransitive(parts[i], Join(parts[1..], sep), Join(parts, sep));
    }
  }

  function DigitChar(d: nat): (c: char)
    requires d < 10
    ensures IsDigit(c)
  {
    ('0' as int + d) as char
  }

  /** `str(n)` for a natural number. */
  function NatToString(n: nat): (r: string)
    ensures r != []
    ensures forall c :: c in r ==> IsDigit(c)
  {
    if n < 10 then [DigitChar(n)] else NatToString(n / 10) + [DigitChar(n % 10)]
  }

  lemma {:induction false} NatToStringInjective(a: nat, b: nat)
    requires NatToString(a) == NatToString(b)
    ensures a == b
  {
    var sa, sb := NatToString(a), NatToString(b);
    assert a >= 10 ==> |sa| == |NatToString(a / 10)| + 1 >= 2;
    assert b >= 10 ==> |sb| == |NatToString(b / 10)| + 1 >= 2;
    if a >= 10 && b >= 10 {
      assert sa[..|sa| - 1] == NatToString(a / 10);
      assert sb[..|sb| - 1] == NatToString(b / 10);
      NatToStringInjective(a / 10, b / 10);
      assert sa[|sa| - 1] == DigitChar(a % 10);
    }
  }

  /** Python's `<` on strings: lexicographic by code point, a proper prefix first. */
  predicate StrLt(a: string, b: string)
    decreases |a|
  {
    if a == [] then b != []
    else if b == [] then false
    else if a[0] < b[0] then true
    else if a[0] == b[0] then StrLt(a[1..], b[1..])
    else false
  }

  predicate StrLe(a: string, b: string) { a == b || StrLt(a, b) }

  lemma {:induction false} StrLtIrreflexive(a: string)
    ensures !StrLt(a, a)
  {
    if a != [] { StrLtIrreflexive(a[1..]); }
  }

  lemma {:induction false} StrLtTransitive(a: string, b: string, c: string)
    requires StrLt(a, b) && StrLt(b, c)
    ensures StrLt(a, c)
    decreases |a|
  {
    if a != [] && a[0] == b[0] && b[0] == c[0] {
      StrLtTransitive(a[1..], b[1..], c[1..]);
    }
  }

  lemma {:induction false} StrLtTotal(a: string, b: string)
    requires a != b
    ensures StrLt(a, b) || StrLt(b, a)
    decreases |a|
  {
    if a != [] && b != [] && a[0] == b[0] {
      assert a == [a[0]] + a[1..] && b == [b[0]] + b[1..];
      StrLtTotal(a[1..], b[1..]);
    }
  }

  lemma StrLeTransitive(a: string, b: string, c: string)
    requires StrLe(a, b) && StrLe(b, c)
    ensures StrLe(a, c)
  {
    if StrLt(a, b) && StrLt(b, c) { StrLtTransitive(a, b, c); }
  }

  lemma StrLeTotal(a: string, b: string)
    ensures StrLe(a, b) || StrLe(b, a)
  {
    if a != b { StrLtTotal(a, b); }
  }
}
