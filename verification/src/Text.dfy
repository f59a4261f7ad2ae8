/** The std::string operations the sources rely on. */
module Text {
  import opened Collections

  predicate OccursAt(s: string, p: string, i: nat) {
    i + |p| <= |s| && s[i..i + |p|] == p
  }

  ghost predicate Contains(s: string, p: string) {
    exists i: nat :: OccursAt(s, p, i)
  }

  /** std::string::find: the first occurrence at or after `from`. */
  function Find(s: string, p: string, from: nat): (r: Option<nat>)
    ensures r.None? ==> forall i :: from <= i ==> !OccursAt(s, p, i)
    ensures r.Some? ==> from <= r.value && OccursAt(s, p, r.value)
                        && forall i :: from <= i < r.value ==> !OccursAt(s, p, i)
    decreases |s| - from
  {
    if from > |s| then None
    else if OccursAt(s, p, from) then Some(from)
    else if from == |s| then None
    else Find(s, p, from + 1)
  }

  /** std::string::find for a character. */
  function FindChar(s: string, c: char, from: nat): (r: Option<nat>)
    ensures r.None? ==> forall i :: from <= i < |s| ==> s[i] != c
    ensures r.Some? ==> from <= r.value < |s| && s[r.value] == c && forall i :: from <= i < r.value ==> s[i] != c
    decreases |s| - from
  {
    if from >= |s| then None
    else if s[from] == c then Some(from)
    else FindChar(s, c, from + 1)
  }

  /** std::string::rfind for a character. */
  function RFindChar(s: string, c: char): (r: Option<nat>)
    ensures r.None? ==> c !in s
    ensures r.Some? ==> r.value < |s| && s[r.value] == c && forall i :: r.value < i < |s| ==> s[i] != c
  {
    if s == [] then None
    else if Last(s) == c then Some(|s| - 1)
    else RFindChar(Front(s), c)
  }

  function Digits(n: nat): (r: string)
    ensures r != [] && forall i :: 0 <= i < |r| ==> '0' <= r[i] <= '9'
  {
    (if n < 10 then [] else Digits(n / 10)) + ["0123456789"[n % 10]]
  }

  /** The number a run of decimal digits stands for. */
  function NumberOf(s: string): int {
    if s == [] then 0 else 10 * NumberOf(Front(s)) + (Last(s) as int - '0' as int)
  }

  /** What is printed is the number, read digit by digit. */
  lemma {:induction false} DigitsAreRead(n: nat)
    ensures NumberOf(Digits(n)) == n
    ensures n > 0 ==> Digits(n)[0] != '0'
  {
    hide Digits;
    DigitsSplit(n);
    DigitCode(n % 10);
    if n >= 10 {
      DigitsAreRead(n / 10);
      assert Digits(n)[0] == Digits(n / 10)[0];
    }
  }

  lemma DigitsAreInjective(m: nat, n: nat)
    requires Digits(m) == Digits(n)
    ensures m == n
  {
    DigitsAreRead(m);
    DigitsAreRead(n);
  }

  lemma DigitCode(d: nat)
    requires d < 10
    ensures "0123456789"[d] as int == '0' as int + d
  {
    assert forall i :: 0 <= i < 10 ==> "0123456789"[i] as int == 48 + i;
  }

  /** The last digit and what stands before it. */
  lemma DigitsSplit(n: nat)
    ensures Digits(n) != [] && Last(Digits(n)) == "0123456789"[n % 10]
    ensures Front(Digits(n)) == if n < 10 then [] else Digits(n / 10)
  {
  }

  /** A text without the separator is what stands before the first one. */
  lemma SplitAt(a: string, x: string, b: string, y: string, sep: char)
    requires sep !in a && sep !in b && a + ([sep] + x) == b + ([sep] + y)
    ensures a == b && x == y
  {
    var s := a + ([sep] + x);
    assert s[|a|] == sep && s[|b|] == sep;
    assert forall i :: 0 <= i < |a| ==> s[i] == a[i];
    assert forall i :: 0 <= i < |b| ==> s[i] == b[i];
    assert |a| == |b|;
    assert a == s[..|a|] && b == s[..|b|] && x == s[|a| + 1..] && y == s[|b| + 1..];
  }

  /** std::to_string. */
  function ToString(n: int): (r: string)
    ensures r != [] && forall i :: 0 <= i < |r| ==> r[i] == '-' || '0' <= r[i] <= '9'
  {
    if n < 0 then "-" + Digits(-n) else Digits(n)
  }

  lemma ToStringIsRead(n: int)
    ensures var s := ToString(n); n == if s[0] == '-' then -NumberOf(s[1..]) else NumberOf(s)
    ensures ToString(n)[0] == '-' <==> n < 0
  {
    hide Digits, NumberOf;
    DigitsAreRead(if n < 0 then -n else n);
    if n < 0 {
      assert ToString(n)[1..] == Digits(-n);
    }
  }

  /** Lexicographic order of std::string. */
  predicate LexLess(a: string, b: string) {
    if b == [] then false
    else if a == [] then true
    else a[0] < b[0] || (a[0] == b[0] && LexLess(a[1..], b[1..]))
  }

  /** The texts agree up to `n`, where `a` ends or goes on with a smaller character. */
  predicate DiffersFirstAt(a: string, b: string, n: nat) {
    n <= |a| && n < |b| && a[..n] == b[..n] && (n == |a| || a[n] < b[n])
  }

  ghost predicate ComesBefore(a: string, b: string) {
    exists n: nat :: DiffersFirstAt(a, b, n)
  }

  lemma {:induction false} LexLessExactly(a: string, b: string)
    ensures LexLess(a, b) <==> ComesBefore(a, b)
  {
    if a != [] && b != [] && a[0] == b[0] {
      LexLessExactly(a[1..], b[1..]);
      forall n: nat | n > 0
        ensures DiffersFirstAt(a, b, n) <==> DiffersFirstAt(a[1..], b[1..], n - 1)
      {
        DiffersLater(a, b, n);
      }
      forall n: nat | DiffersFirstAt(a[1..], b[1..], n)
        ensures DiffersFirstAt(a, b, n + 1)
      {
        DiffersLater(a, b, n + 1);
      }
      assert !DiffersFirstAt(a, b, 0);
    } else if b != [] {
      if LexLess(a, b) {
        assert DiffersFirstAt(a, b, 0);
      } else {
        forall n: nat
          ensures !DiffersFirstAt(a, b, n)
        {
          SameHead(a, b, n);
        }
      }
    }
  }

  lemma SameHead(a: string, b: string, n: nat)
    ensures n > 0 && DiffersFirstAt(a, b, n) ==> a[0] == b[0]
  {
    if n > 0 && DiffersFirstAt(a, b, n) {
      assert a[..n][0] == a[0] && b[..n][0] == b[0];
    }
  }

  lemma DiffersLater(a: string, b: string, n: nat)
    requires a != [] && b != [] && a[0] == b[0] && n > 0
    ensures DiffersFirstAt(a, b, n) <==> DiffersFirstAt(a[1..], b[1..], n - 1)
  {
    if n <= |a| && n <= |b| {
      assert a[..n] == [a[0]] + a[1..][..n - 1] && b[..n] == [b[0]] + b[1..][..n - 1];
      assert a[..n][1..] == a[1..][..n - 1] && b[..n][1..] == b[1..][..n - 1];
    }
  }

  lemma {:induction false} LexTotal(a: string, b: string)
    ensures a == b || LexLess(a, b) || LexLess(b, a)
    ensures !(LexLess(a, b) && LexLess(b, a)) && !LexLess(a, a)
  {
    if a != [] {
      LexTotal(a[1..], a[1..]);
      if b != [] && a[0] == b[0] {
        LexTotal(a[1..], b[1..]);
        assert a == [a[0]] + a[1..] && b == [b[0]] + b[1..];
      }
    }
  }

  lemma {:induction false} LexTransitive(a: string, b: string, c: string)
    requires LexLess(a, b) && LexLess(b, c)
    ensures LexLess(a, c)
  {
    if a != [] && a[0] == b[0] == c[0] {
      LexTransitive(a[1..], b[1..], c[1..]);
    }
  }
}
