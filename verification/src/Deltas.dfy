/** Differences of consecutive 64-bit counter readings, and the lists the monitors make of them. */
module Deltas {
  import opened Words
  import opened Collections

  /** Unsigned subtraction. */
  function Sub64(a: U64, b: U64): U64 {
    Wrap64(a - b)
  }

  lemma WrapsTogether(a: int, b: int)
    ensures Sub64(Wrap64(a), Wrap64(b)) == Wrap64(a - b)
  {
    hide Wrap64;
    SameWrap(a);
    SameWrap(b);
    SameSymmetric(Wrap64(b), b);
    SameAdd(Wrap64(a), a, b, Wrap64(b));
    SameDifference(Wrap64(a) + b, a + Wrap64(b), Wrap64(a) - Wrap64(b), a - b);
    SameIsEqualWrap(Wrap64(a) - Wrap64(b), a - b);
  }

  /** The true change, which may be negative. */
  function Change(first: U64, last: U64): int {
    last - first
  }

  /** The sum, unbounded, of the wrapped differences of consecutive readings. */
  function SumDeltas(vs: seq<U64>): nat {
    if |vs| < 2 then 0 else SumDeltas(Front(vs)) + Sub64(Last(vs), vs[|vs| - 2])
  }

  ghost predicate NonDecreasing(vs: seq<U64>) {
    forall i, j :: 0 <= i <= j < |vs| ==> vs[i] <= vs[j]
  }

  lemma WrappedStep(sum: int, first: U64, middle: U64, last: U64)
    requires Same64(sum, middle - first)
    ensures Same64(sum + Sub64(last, middle), last - first)
  {
    SameWrap(last - middle);
    SameAdd(sum, middle - first, Sub64(last, middle), last - middle);
  }

  /** The deltas of any run of readings add up to last minus first modulo 2^64, and exactly for a counter
      that never decreases. */
  lemma {:induction false} DeltasTelescope(vs: seq<U64>)
    requires vs != []
    ensures Same64(SumDeltas(vs), Change(vs[0], Last(vs)))
    ensures NonDecreasing(vs) ==> SumDeltas(vs) == Change(vs[0], Last(vs))
  {
    hide Wrap64, Sub64, Same64, NonDecreasing;
    if |vs| == 1 {
      SameSelf(0);
    } else {
      DeltasTelescope(Front(vs));
      WrappedStep(SumDeltas(Front(vs)), vs[0], vs[|vs| - 2], Last(vs));
      if NonDecreasing(vs) {
        LatestStep(vs);
      }
    }
  }

  lemma LatestStep(vs: seq<U64>)
    requires |vs| >= 2 && NonDecreasing(vs)
    ensures NonDecreasing(Front(vs)) && Sub64(Last(vs), vs[|vs| - 2]) == Last(vs) - vs[|vs| - 2]
  {
    hide Wrap64;
    WrapWord(Last(vs) - vs[|vs| - 2]);
  }

  // ------------------------------------------------------------------------------------------
  // Comparing two snapshots entry by entry
  // ------------------------------------------------------------------------------------------

  /** The figures of exactly the wanted names in both snapshots. */
  function Compare<R, S>(stats: (string, R, R) -> S, wanted: string -> bool, prev: map<string, R>, cur: map<string, R>): map<string, S> {
    map name | name in cur && name in prev && wanted(name) :: stats(name, cur[name], prev[name])
  }

  /** The list holds each entry of the report once. */
  ghost predicate Lists<S(!new)>(nameOf: S -> string, items: seq<S>, report: map<string, S>) {
    && |items| == |report|
    && (forall i :: 0 <= i < |items| ==> nameOf(items[i]) in report && items[i] == report[nameOf(items[i])])
    && (forall name :: name in report ==> report[name] in items)
    && (forall i, j :: 0 <= i < j < |items| ==> nameOf(items[i]) != nameOf(items[j]))
  }

  lemma CompareNothing<R, S>(stats: (string, R, R) -> S, wanted: string -> bool, prev: map<string, R>, cur: map<string, R>)
    ensures Compare(stats, wanted, prev, cur - cur.Keys) == map[]
  {
  }

  lemma ListsNothing<S(!new)>(nameOf: S -> string)
    ensures Lists(nameOf, [], map[])
  {
  }

  lemma CompareExtend<R, S>(stats: (string, R, R) -> S, wanted: string -> bool, prev: map<string, R>, cur: map<string, R>,
                            rest: set<string>, name: string)
    requires name in rest && name in cur
    ensures name !in Compare(stats, wanted, prev, cur - rest)
    ensures Compare(stats, wanted, prev, cur - (rest - {name}))
            == var before := Compare(stats, wanted, prev, cur - rest);
               if name in prev && wanted(name) then before[name := stats(name, cur[name], prev[name])] else before
  {
  }

  lemma ListsAppend<S(!new)>(nameOf: S -> string, items: seq<S>, report: map<string, S>, s: S)
    requires Lists(nameOf, items, report) && nameOf(s) !in report
    ensures Lists(nameOf, items + [s], report[nameOf(s) := s])
  {
    hide Lists;
    PutNew(report, nameOf(s), s);
    ListedAppend(nameOf, items, report, s);
  }

  lemma ListedAppend<S(!new)>(nameOf: S -> string, items: seq<S>, report: map<string, S>, s: S)
    requires Lists(nameOf, items, report) && nameOf(s) !in report && |report[nameOf(s) := s]| == |report| + 1
    ensures Lists(nameOf, items + [s], report[nameOf(s) := s])
  {
    var l, r := items + [s], report[nameOf(s) := s];
    assert l[|items|] == s;
    forall i | 0 <= i < |items|
      ensures l[i] == items[i] && nameOf(l[i]) in report && l[i] == r[nameOf(l[i])] && nameOf(l[i]) != nameOf(s)
    {
    }
    forall name | name in r
      ensures r[name] in l
    {
      if name != nameOf(s) {
        assert report[name] in items;
      }
    }
  }

  /** The sum of a figure over the entries of a name. */
  function SumNamed<T>(nameOf: T -> string, figure: T -> real, items: seq<T>, name: string): real {
    if items == [] then 0.0
    else SumNamed(nameOf, figure, Front(items), name) + (if nameOf(Last(items)) == name then figure(Last(items)) else 0.0)
  }

  lemma {:induction false} SumOfAbsent<T>(nameOf: T -> string, figure: T -> real, items: seq<T>, name: string)
    requires forall i :: 0 <= i < |items| ==> nameOf(items[i]) != name
    ensures SumNamed(nameOf, figure, items, name) == 0.0
  {
    if items != [] {
      SumOfAbsent(nameOf, figure, Front(items), name);
    }
  }

  lemma {:induction false} SumOfOne<T>(nameOf: T -> string, figure: T -> real, items: seq<T>, k: nat)
    requires k < |items| && forall i :: 0 <= i < |items| && i != k ==> nameOf(items[i]) != nameOf(items[k])
    ensures SumNamed(nameOf, figure, items, nameOf(items[k])) == figure(items[k])
  {
    if k == |items| - 1 {
      SumOfAbsent(nameOf, figure, Front(items), nameOf(items[k]));
    } else {
      SumOfOne(nameOf, figure, Front(items), k);
    }
  }

  /** A message per entry of a list says of a reported name what its report says, once. */
  lemma ListedOnce<S(!new), T>(nameOf: S -> string, message: S -> T, messageName: T -> string, figure: T -> real,
                               items: seq<S>, report: map<string, S>, name: string)
    requires Lists(nameOf, items, report) && name in report && nameOf(report[name]) == name
    requires forall i :: 0 <= i < |items| ==> messageName(message(items[i])) == nameOf(items[i])
    ensures SumNamed(messageName, figure, Map(message, items), name) == figure(message(report[name]))
  {
    var k :| 0 <= k < |items| && items[k] == report[name];
    assert forall i :: 0 <= i < |items| && i != k ==> nameOf(items[i]) != nameOf(items[k]);
    SumOfOne(messageName, figure, Map(message, items), k);
  }
}
