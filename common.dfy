/** Shared vocabulary of the kiosk model: optional values, the JavaScript
    idioms the sources lean on (`x || default`, `Math.round` of a ratio,
    `String(n)`, `[x, ...prev.slice(0, k)]`) and small facts about them. */
module Common {

  datatype Option<+T> = None | Some(value: T)

  /** `x || fallback` on an optional string: absent and empty are both falsy. */
  function OrElse(x: Option<string>, fallback: string): (r: string)
    ensures r == fallback || (x.Some? && r == x.value && r != "")
    ensures x.Some? && x.value != "" ==> r == x.value
  {
    if x.Some? && x.value != "" then x.value else fallback
  }

  function Max(a: int, b: int): int { if a >= b then a else b }

  function Min(a: int, b: int): int { if a <= b then a else b }

  /** `Math.round(num / den)` for a non-negative ratio: the nearest integer,
      halves rounded up. */
  function RoundRatio(num: nat, den: nat): (r: nat)
    requires den > 0
    ensures 2 * num < (2 * r + 1) * den && (2 * r - 1) * den <= 2 * num
  {
    (2 * num + den) / (2 * den)
  }

  /** `Math.round((part / whole) * 100)`. */
  function Percent(part: nat, whole: nat): (r: nat)
    requires whole > 0
    ensures part <= whole ==> r <= 100
    ensures part == whole ==> r == 100
    ensures part == 0 ==> r == 0
  {
    PercentBounds(part, whole);
    RoundRatio(100 * part, whole)
  }

  lemma PercentBounds(part: nat, whole: nat)
    requires whole > 0
    ensures part <= whole ==> RoundRatio(100 * part, whole) <= 100
    ensures part == whole ==> RoundRatio(100 * part, whole) == 100
    ensures part == 0 ==> RoundRatio(100 * part, whole) == 0
  {
    var d := 2 * whole;
    if part <= whole {
      assert 2 * 100 * part + whole < 101 * d;
      DivBelow(2 * 100 * part + whole, d, 100);
    }
    if part == whole {
      assert 100 * d <= 2 * 100 * part + whole;
      DivAtLeast(2 * 100 * part + whole, d, 100);
    }
    if part == 0 {
      DivBelow(whole, d, 0);
    }
  }

  lemma DivBelow(x: int, d: int, q: int)
    requires d > 0 && x < (q + 1) * d
    ensures x / d <= q
  {
    var r := x / d;
    if r > q {
      MulMonotone(q + 1, r, d);
    }
  }

  lemma DivAtLeast(x: int, d: int, q: int)
    requires d > 0 && q * d <= x
    ensures x / d >= q
  {
    var r := x / d;
    if r < q {
      MulMonotone(r + 1, q, d);
    }
  }

  /** A larger part never gives a smaller percentage. */
  lemma PercentMonotone(a: nat, b: nat, whole: nat)
    requires whole > 0 && a <= b
    ensures Percent(a, whole) <= Percent(b, whole)
  {
    var r1, r2 := Percent(a, whole), Percent(b, whole);
    assert (2 * r1 - 1) * whole < (2 * r2 + 1) * whole;
    if r1 > r2 {
      MulMonotone(2 * r2 + 1, 2 * r1 - 1, whole);
    }
  }

  lemma MulMonotone(x: int, y: int, d: nat)
    requires x <= y
    ensures x * d <= y * d
  {
  }

  function DigitChar(d: nat): (c: char)
    requires d < 10
    ensures '0' <= c <= '9' && DigitValue(c) == d
  {
    ('0' as int + d) as char
  }

  function DigitValue(c: char): nat
    requires '0' <= c <= '9'
  {
    (c as int - '0' as int) as nat
  }

  predicate IsDigits(s: string) { forall i :: 0 <= i < |s| ==> '0' <= s[i] <= '9' }

  /** `String(n)` for a non-negative integer: its shortest decimal spelling. */
  function NatToString(n: nat): (s: string)
    ensures |s| >= 1 && IsDigits(s)
    ensures |s| > 1 ==> s[0] != '0'
    decreases n
  {
    if n < 10 then [DigitChar(n)] else NatToString(n / 10) + [DigitChar(n % 10)]
  }

  /** Reads a string of decimal digits back as a number. */
  function ParseDigits(s: string): nat
    requires IsDigits(s)
  {
    if s == [] then 0 else 10 * ParseDigits(s[..|s| - 1]) + DigitValue(s[|s| - 1])
  }

  lemma {:induction false} NatToStringRoundTrip(n: nat)
    ensures ParseDigits(NatToString(n)) == n
    decreases n
  {
    var s := NatToString(n);
    if n >= 10 {
      NatToStringRoundTrip(n / 10);
      assert s[..|s| - 1] == NatToString(n / 10);
    }
  }

  /** Different numbers are spelled differently. */
  lemma NatToStringInjective(m: nat, n: nat)
    requires NatToString(m) == NatToString(n)
    ensures m == n
  {
    NatToStringRoundTrip(m);
    NatToStringRoundTrip(n);
  }

  /** `String(i)` for any integer. */
  function IntToString(i: int): (s: string)
    ensures i >= 0 ==> s == NatToString(i)
    ensures i < 0 ==> s == "-" + NatToString(-i)
  {
    if i >= 0 then NatToString(i) else "-" + NatToString(-i)
  }

  /** `String(n).padStart(2, "0")`, the two-digit day of an ISO date. */
  function TwoDigits(n: nat): (s: string)
    requires n < 100
    ensures |s| == 2 && IsDigits(s) && ParseDigits(s) == n
  {
    var s := [DigitChar(n / 10), DigitChar(n % 10)];
    assert s[..1][..0] == [];
    assert ParseDigits(s[..1]) == n / 10;
    s
  }

  predicate NoDup<T(==)>(s: seq<T>) {
    forall i, j :: 0 <= i < j < |s| ==> s[i] != s[j]
  }

  /** A list with a new head is duplicate-free exactly when the head is
      not in the rest and the rest is duplicate-free. */
  lemma NoDupCons<T>(x: T, s: seq<T>)
    ensures NoDup([x] + s) <==> x !in s && NoDup(s)
  {
    var t := [x] + s;
    assert forall i :: 0 <= i < |s| ==> t[i + 1] == s[i];
    if NoDup(t) {
      forall i, j | 0 <= i < j < |s|
        ensures s[i] != s[j]
      {
        assert t[i + 1] != t[j + 1];
      }
      forall j | 0 <= j < |s|
        ensures s[j] != x
      {
        assert t[0] != t[j + 1];
      }
    }
    if x !in s && NoDup(s) {
      forall i, j | 0 <= i < j < |t|
        ensures t[i] != t[j]
      {
        if i == 0 {
          assert t[j] == s[j - 1];
        } else {
          assert t[i] == s[i - 1] && t[j] == s[j - 1];
        }
      }
    }
  }

  /** A duplicate-free sequence has as many distinct elements as entries. */
  lemma {:induction false} NoDupCardinality<T>(s: seq<T>)
    requires NoDup(s)
    ensures |set x | x in s| == |s|
  {
    if s != [] {
      var t := s[1..];
      assert NoDup(t);
      NoDupCardinality(t);
      assert (set x | x in s) == (set x | x in t) + {s[0]};
      assert forall k :: 0 <= k < |t| ==> t[k] == s[k + 1] && t[k] != s[0];
    }
  }

  /** A duplicate-free sequence drawn from a finite set is no longer than the set. */
  lemma NoDupBoundedBy<T>(s: seq<T>, universe: set<T>)
    requires NoDup(s)
    requires forall i :: 0 <= i < |s| ==> s[i] in universe
    ensures |s| <= |universe|
  {
    NoDupCardinality(s);
    var elems := set x | x in s;
    assert elems <= universe;
    assert |universe| == |elems| + |universe - elems|;
  }

  /** A duplicate-free sequence drawn from a finite set, as long as the set,
      contains every element of it. */
  lemma NoDupFillsUniverse<T>(s: seq<T>, universe: set<T>)
    requires NoDup(s)
    requires forall i :: 0 <= i < |s| ==> s[i] in universe
    requires |s| == |universe|
    ensures forall u :: u in universe ==> u in s
  {
    NoDupCardinality(s);
    var elems := set x | x in s;
    assert |universe| == |elems| + |universe - elems|;
    assert |universe - elems| == 0;
    forall u | u in universe ensures u in s {
      assert u !in universe - elems;
    }
  }

  /** `[x, ...buffer.slice(0, keep)]`: the newest entry first, then at most
      `keep` of the previous entries in their previous order. */
  function PrependBounded<T>(x: T, buffer: seq<T>, keep: nat): (r: seq<T>)
    ensures |r| == 1 + Min(keep, |buffer|)
    ensures r[0] == x
    ensures forall i :: 1 <= i < |r| ==> r[i] == buffer[i - 1]
  {
    [x] + buffer[..Min(keep, |buffer|)]
  }

  /** A run of `PrependBounded`, one per entry of `xs`, oldest entry first:
      the result lists the newest entries of `xs` first, then what is left
      of the old buffer, and never holds more than `keep + 1` entries. */
  function PrependAll<T>(buffer: seq<T>, xs: seq<T>, keep: nat): (r: seq<T>)
    ensures |r| == if xs == [] then |buffer| else Min(keep + 1, |xs| + |buffer|)
    ensures forall i :: 0 <= i < |r| && i < |xs| ==> r[i] == xs[|xs| - 1 - i]
    ensures forall i :: |xs| <= i < |r| ==> r[i] == buffer[i - |xs|]
  {
    if xs == [] then buffer
    else PrependBounded(xs[|xs| - 1], PrependAll(buffer, xs[..|xs| - 1], keep), keep)
  }

  /** Prepending one more entry after a run. */
  lemma PrependAllSnoc<T>(buffer: seq<T>, xs: seq<T>, x: T, keep: nat)
    ensures PrependAll(buffer, xs + [x], keep) == PrependBounded(x, PrependAll(buffer, xs, keep), keep)
  {
    assert (xs + [x])[..|xs|] == xs;
  }

  /** `s.slice(0, n)`. */
  function Take<T>(s: seq<T>, n: nat): (r: seq<T>)
    ensures |r| == Min(n, |s|) && r == s[..|r|]
  {
    s[..Min(n, |s|)]
  }

  // Instants are milliseconds since the epoch; local time is a fixed offset
  // from UTC in milliseconds (daylight-saving changes are not modelled).

  /** 60 * 60 * 1000 and 24 of them. */
  const HourMs: int := 3600000
  const DayMs: int := 86400000

  /** `new Date(y, m, d)` for the local date of instant `t`: its local midnight. */
  function LocalDayStart(t: int, offset: int): (r: int)
    ensures r <= t < r + DayMs && (r + offset) % DayMs == 0
  {
    t - (t + offset) % DayMs
  }

  /** `new Date(t).getHours()`. */
  function LocalHour(t: int, offset: int): (h: int)
    ensures 0 <= h < 24
  {
    ((t + offset) / HourMs) % 24
  }

  /** `date.setDate(date.getDate() - i)` on today's date, then its local midnight. */
  function DaysAgoStart(now: int, offset: int, i: nat): int {
    LocalDayStart(now - i * DayMs, offset)
  }

  /** Going back `i` days moves the local midnight back by exactly `i` days. */
  lemma {:induction false} DaysAgoStartShift(now: int, offset: int, i: nat)
    ensures DaysAgoStart(now, offset, i) == LocalDayStart(now, offset) - i * DayMs
  {
    assert DayMs == 86400000;
    if i > 0 {
      DaysAgoStartShift(now, offset, i - 1);
      var x := now - (i - 1) * DayMs + offset;
      assert now - i * DayMs + offset == x - DayMs;
      assert (x - DayMs) % DayMs == x % DayMs;
    }
  }

  /** Number of entries satisfying `p`: `s.filter(p).length`. */
  function CountWhere<T>(s: seq<T>, p: T -> bool): (r: nat)
    ensures r <= |s|
  {
    if s == [] then 0 else CountWhere(s[..|s| - 1], p) + (if p(s[|s| - 1]) then 1 else 0)
  }

  /** `s.filter(p)`, in order. */
  function Filter<T>(s: seq<T>, p: T -> bool): (r: seq<T>)
    ensures |r| == CountWhere(s, p)
    ensures forall i :: 0 <= i < |r| ==> p(r[i]) && r[i] in s
  {
    if s == [] then [] else
      Filter(s[..|s| - 1], p) + (if p(s[|s| - 1]) then [s[|s| - 1]] else [])
  }

  /** `filter` keeps exactly the entries satisfying the condition. */
  lemma {:induction false} FilterMembership<T>(s: seq<T>, p: T -> bool, x: T)
    ensures x in Filter(s, p) <==> x in s && p(x)
  {
    if s != [] {
      FilterMembership(s[..|s| - 1], p, x);
      assert s == s[..|s| - 1] + [s[|s| - 1]];
    }
  }

  /** Counting over a list with one more entry at the end. */
  lemma CountWhereSnoc<T>(s: seq<T>, x: T, p: T -> bool)
    ensures CountWhere(s + [x], p) == CountWhere(s, p) + (if p(x) then 1 else 0)
  {
    assert (s + [x])[..|s|] == s;
  }

  /** Nothing is counted exactly when no entry passes the test. */
  lemma {:induction false} CountWhereZero<T>(s: seq<T>, p: T -> bool)
    ensures CountWhere(s, p) == 0 <==> forall i :: 0 <= i < |s| ==> !p(s[i])
  {
    if s != [] {
      var init := s[..|s| - 1];
      CountWhereZero(init, p);
      assert forall i :: 0 <= i < |init| ==> init[i] == s[i];
    }
  }

  /** Counting over a list with one more entry in front. */
  lemma {:induction false} CountWhereCons<T>(x: T, s: seq<T>, p: T -> bool)
    ensures CountWhere([x] + s, p) == (if p(x) then 1 else 0) + CountWhere(s, p)
  {
    if s != [] {
      CountWhereCons(x, s[..|s| - 1], p);
      assert ([x] + s)[..|s|] == [x] + s[..|s| - 1];
    }
  }

  /** Counting with a stronger condition never gives more. */
  lemma {:induction false} CountWhereMonotone<T>(s: seq<T>, p: T -> bool, q: T -> bool)
    requires forall x :: p(x) ==> q(x)
    ensures CountWhere(s, p) <= CountWhere(s, q)
  {
    if s != [] {
      CountWhereMonotone(s[..|s| - 1], p, q);
    }
  }

  function Sum(s: seq<int>): int {
    if s == [] then 0 else Sum(s[..|s| - 1]) + s[|s| - 1]
  }

  /** How many times `key` occurs in `keys`. */
  function Occurrences<T(==)>(keys: seq<T>, key: T): (r: nat)
    ensures r <= |keys|
  {
    if keys == [] then 0
    else Occurrences(keys[..|keys| - 1], key) + (if keys[|keys| - 1] == key then 1 else 0)
  }

  /** A tally `Record<string, number>` as its entries in insertion order. */
  type Tally = seq<(string, nat)>

  /** `acc[key] || 0`. */
  function TallyGet(acc: Tally, key: string): nat {
    if acc == [] then 0 else if acc[0].0 == key then acc[0].1 else TallyGet(acc[1..], key)
  }

  function TallyKeys(acc: Tally): (r: seq<string>)
    ensures |r| == |acc|
  {
    seq(|acc|, i requires 0 <= i < |acc| => acc[i].0)
  }

  function TallyTotal(acc: Tally): int {
    if acc == [] then 0 else acc[0].1 + TallyTotal(acc[1..])
  }

  /** `acc[key] = (acc[key] || 0) + 1`: an existing key keeps its place. */
  function Bump(acc: Tally, key: string): (r: Tally)
    ensures TallyGet(r, key) == TallyGet(acc, key) + 1
    ensures forall k :: k != key ==> TallyGet(r, k) == TallyGet(acc, k)
    ensures TallyTotal(r) == TallyTotal(acc) + 1
  {
    if acc == [] then [(key, 1)]
    else if acc[0].0 == key then [(key, acc[0].1 + 1)] + acc[1..]
    else [acc[0]] + Bump(acc[1..], key)
  }

  /** Bumping adds the key to the keys once at most. */
  lemma {:induction false} BumpKeys(acc: Tally, key: string)
    ensures forall k :: k in TallyKeys(Bump(acc, key)) <==> k in TallyKeys(acc) || k == key
    ensures NoDup(TallyKeys(acc)) ==> NoDup(TallyKeys(Bump(acc, key)))
  {
    var r := Bump(acc, key);
    if acc == [] {
      assert TallyKeys(r) == [key];
    } else if acc[0].0 == key {
      assert TallyKeys(r) == TallyKeys(acc);
      assert TallyKeys(acc)[0] == key;
    } else {
      var rest := Bump(acc[1..], key);
      BumpKeys(acc[1..], key);
      assert r == [acc[0]] + rest;
      assert TallyKeys(acc) == [acc[0].0] + TallyKeys(acc[1..]);
      assert TallyKeys(r) == [acc[0].0] + TallyKeys(rest);
      NoDupCons(acc[0].0, TallyKeys(acc[1..]));
      NoDupCons(acc[0].0, TallyKeys(rest));
    }
  }

  /** The `reduce` that tallies a list of keys into a fresh record. */
  method GroupCount(keys: seq<string>) returns (acc: Tally)
    ensures forall k :: TallyGet(acc, k) == Occurrences(keys, k)
    ensures TallyTotal(acc) == |keys|
    ensures NoDup(TallyKeys(acc))
    ensures forall k :: k in TallyKeys(acc) <==> k in keys
  {
    acc := [];
    for i := 0 to |keys|
      invariant forall k :: TallyGet(acc, k) == Occurrences(keys[..i], k)
      invariant TallyTotal(acc) == i
      invariant NoDup(TallyKeys(acc))
      invariant forall k :: k in TallyKeys(acc) <==> k in keys[..i]
    {
      BumpKeys(acc, keys[i]);
      acc := Bump(acc, keys[i]);
      assert keys[..i + 1][..i] == keys[..i];
      assert keys[..i + 1] == keys[..i] + [keys[i]];
    }
    assert keys[..|keys|] == keys;
  }
}
