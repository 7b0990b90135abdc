/**
  The fetched transaction rows every analysis works on (columns date, amount,
  type, category, description), the calendar facts pandas derives from a
  timestamp, and the filters and group sums the services apply to them.
 */
module Ledger {
  import opened Numeric

  datatype Kind = Income | Expense | Other

  /** One row; `at` is the timestamp in whole seconds since 1970-01-01 00:00. */
  datatype Transaction = Transaction(at: int, amount: real, kind: Kind, category: string, description: string)

  type Rows = seq<Transaction>

  const SecondsPerDay: int := 86400

  /** The calendar day of a timestamp (`dt.date`), as days since 1970-01-01. */
  function DayOf(t: Transaction): int
  {
    t.at / SecondsPerDay
  }

  datatype Date = Date(year: int, month: int, day: int)

  /** The proleptic Gregorian date of a day number (H. Hinnant's civil_from_days). */
  function CivilFromDays(z0: int): Date
  {
    var z := z0 + 719468;
    var era := z / 146097;
    var doe := z - era * 146097;
    var yoe := (doe - doe / 1460 + doe / 36524 - doe / 146096) / 365;
    var doy := doe - (365 * yoe + yoe / 4 - yoe / 100);
    var mp := (5 * doy + 2) / 153;
    var d := doy - (153 * mp + 2) / 5 + 1;
    var m := if mp < 10 then mp + 3 else mp - 9;
    Date(if m <= 2 then yoe + era * 400 + 1 else yoe + era * 400, m, d)
  }

  /** A calendar month as a single number, so that months compare and subtract like pandas periods. */
  function MonthIndex(year: int, month: int): int
  {
    year * 12 + (month - 1)
  }

  /** `dt.to_period('M')`. */
  function MonthKey(t: Transaction): int
  {
    var d := CivilFromDays(DayOf(t));
    MonthIndex(d.year, d.month)
  }

  function DayKey(t: Transaction): int
  {
    DayOf(t)
  }

  function CategoryKey(t: Transaction): string
  {
    t.category
  }

  /** `dt.dayofweek`: Monday is 0 and Sunday is 6; 1970-01-01 was a Thursday. */
  function DayOfWeek(t: Transaction): (r: int)
    ensures 0 <= r < 7
    ensures r == 3 <== DayOf(t) % 7 == 0
  {
    (DayOf(t) + 3) % 7
  }

  /** `dt.day`. */
  function DayOfMonth(t: Transaction): int
  {
    CivilFromDays(DayOf(t)).day
  }

  function OfKind(l: Rows, k: Kind): (r: Rows)
    ensures |r| <= |l|
    ensures forall i :: 0 <= i < |r| ==> r[i].kind == k
  {
    if |l| == 0 then []
    else if l[|l| - 1].kind == k then OfKind(l[..|l| - 1], k) + [l[|l| - 1]]
    else OfKind(l[..|l| - 1], k)
  }

  /** `df[df['type'] == 'expense']`. */
  function Expenses(l: Rows): Rows
  {
    OfKind(l, Expense)
  }

  function Incomes(l: Rows): Rows
  {
    OfKind(l, Income)
  }

  /** The rows whose key is k, in their original order. */
  function WithKey<K(==)>(l: Rows, key: Transaction -> K, k: K): (r: Rows)
    ensures |r| <= |l|
    ensures forall i :: 0 <= i < |r| ==> key(r[i]) == k
  {
    if |l| == 0 then []
    else if key(l[|l| - 1]) == k then WithKey(l[..|l| - 1], key, k) + [l[|l| - 1]]
    else WithKey(l[..|l| - 1], key, k)
  }

  /** The `amount` column. */
  function Amounts(l: Rows): (r: seq<real>)
    ensures |r| == |l|
    ensures forall i :: 0 <= i < |l| ==> r[i] == l[i].amount
  {
    seq(|l|, i requires 0 <= i < |l| => l[i].amount)
  }

  function Total(l: Rows): real
  {
    Sum(Amounts(l))
  }

  /** `groupby(key)['amount'].sum()` evaluated at the keys ks, in that order. */
  function GroupSums<K(==)>(l: Rows, key: Transaction -> K, ks: seq<K>): (r: seq<real>)
    ensures |r| == |ks|
  {
    seq(|ks|, i requires 0 <= i < |ks| => Total(WithKey(l, key, ks[i])))
  }

  /** Distinct values in order of first appearance (pandas `unique()`). */
  function Distinct<T(==)>(s: seq<T>): (r: seq<T>)
    ensures |r| <= |s|
    ensures forall i :: 0 <= i < |s| ==> s[i] in r
    ensures forall i :: 0 <= i < |r| ==> r[i] in s
    ensures forall i, j :: 0 <= i < j < |r| ==> r[i] != r[j]
  {
    if |s| == 0 then []
    else if s[|s| - 1] in Distinct(s[..|s| - 1]) then Distinct(s[..|s| - 1])
    else Distinct(s[..|s| - 1]) + [s[|s| - 1]]
  }

  function Keys<K>(l: Rows, key: Transaction -> K): (r: seq<K>)
    ensures |r| == |l|
    ensures forall i :: 0 <= i < |l| ==> r[i] == key(l[i])
  {
    seq(|l|, i requires 0 <= i < |l| => key(l[i]))
  }

  /** `expenses['category'].unique()`. */
  function Categories(l: Rows): seq<string>
  {
    Distinct(Keys(l, CategoryKey))
  }

  /** The integers lo, lo + 1, ..., hi that some row's key equals. */
  function PresentBetween(l: Rows, key: Transaction -> int, lo: int, hi: int): (r: seq<int>)
    ensures forall i :: 0 <= i < |r| ==> lo <= r[i] <= hi
    ensures forall i, j :: 0 <= i < j < |r| ==> r[i] < r[j]
    decreases hi - lo
  {
    if hi < lo then []
    else if lo in Keys(l, key) then [lo] + PresentBetween(l, key, lo + 1, hi)
    else PresentBetween(l, key, lo + 1, hi)
  }

  function MinKey(l: Rows, key: Transaction -> int): (r: int)
    requires |l| > 0
    ensures forall i :: 0 <= i < |l| ==> r <= key(l[i])
    ensures exists i :: 0 <= i < |l| && r == key(l[i])
  {
    if |l| == 1 then key(l[0])
    else
      var m := MinKey(l[..|l| - 1], key);
      if key(l[|l| - 1]) < m then key(l[|l| - 1]) else m
  }

  function MaxKey(l: Rows, key: Transaction -> int): (r: int)
    requires |l| > 0
    ensures forall i :: 0 <= i < |l| ==> key(l[i]) <= r
    ensures exists i :: 0 <= i < |l| && r == key(l[i])
  {
    if |l| == 1 then key(l[0])
    else
      var m := MaxKey(l[..|l| - 1], key);
      if key(l[|l| - 1]) > m then key(l[|l| - 1]) else m
  }

  /** Sorted distinct key values (pandas `groupby` on an integer key, e.g. months). */
  function SortedKeys(l: Rows, key: Transaction -> int): (r: seq<int>)
  {
    if |l| == 0 then [] else PresentBetween(l, key, MinKey(l, key), MaxKey(l, key))
  }

  function AtKey(t: Transaction): int { t.at }

  // ---------------------------------------------------------------- lemmas

  lemma {:induction false} TotalAppend(l: Rows, t: Transaction)
    ensures Total(l + [t]) == Total(l) + t.amount
  {
    assert Amounts(l + [t]) == Amounts(l) + [t.amount];
    SumAppend(Amounts(l), t.amount);
  }

  /** The group sum of a key after one more row. */
  lemma WithKeyAppend<K>(l: Rows, key: Transaction -> K, t: Transaction, k: K)
    ensures WithKey(l + [t], key, k) == if key(t) == k then WithKey(l, key, k) + [t] else WithKey(l, key, k)
  {
    assert (l + [t])[..|l|] == l;
  }

  lemma {:induction false} GroupSumsAppend<K>(l: Rows, key: Transaction -> K, t: Transaction, ks: seq<K>)
    requires forall i, j :: 0 <= i < j < |ks| ==> ks[i] != ks[j]
    ensures Sum(GroupSums(l + [t], key, ks)) == Sum(GroupSums(l, key, ks)) + if key(t) in ks then t.amount else 0.0
  {
    if |ks| > 0 {
      var ks' := ks[..|ks| - 1];
      var k := ks[|ks| - 1];
      GroupSumsAppend(l, key, t, ks');
      assert GroupSums(l + [t], key, ks)[..|ks'|] == GroupSums(l + [t], key, ks');
      assert GroupSums(l, key, ks)[..|ks'|] == GroupSums(l, key, ks');
      WithKeyAppend(l, key, t, k);
      if key(t) == k {
        TotalAppend(WithKey(l, key, k), t);
        assert key(t) !in ks';
      }
      assert ks == ks' + [k];
      assert key(t) in ks <==> key(t) in ks' || key(t) == k;
    }
  }

  /**
    Grouping partitions the rows: when every row's key is among the distinct
    keys ks, the group sums add up to the total amount.
   */
  lemma {:induction false} GroupSumsPartition<K>(l: Rows, key: Transaction -> K, ks: seq<K>)
    requires forall i, j :: 0 <= i < j < |ks| ==> ks[i] != ks[j]
    requires forall i :: 0 <= i < |l| ==> key(l[i]) in ks
    ensures Sum(GroupSums(l, key, ks)) == Total(l)
  {
    if |l| == 0 {
      assert forall i :: 0 <= i < |ks| ==> GroupSums(l, key, ks)[i] == 0.0;
      SumConstant(GroupSums(l, key, ks), 0.0);
    } else {
      var l' := l[..|l| - 1];
      var t := l[|l| - 1];
      GroupSumsPartition(l', key, ks);
      assert l == l' + [t];
      GroupSumsAppend(l', key, t, ks);
      TotalAppend(l', t);
    }
  }

  lemma {:induction false} OfKindAppend(l: Rows, t: Transaction, k: Kind)
    ensures OfKind(l + [t], k) == if t.kind == k then OfKind(l, k) + [t] else OfKind(l, k)
  {
    assert (l + [t])[..|l|] == l;
  }

  lemma {:induction false} OfKindConcat(l: Rows, m: Rows, k: Kind)
    ensures OfKind(l + m, k) == OfKind(l, k) + OfKind(m, k)
    decreases |m|
  {
    if |m| == 0 {
      assert l + m == l;
    } else {
      var m' := m[..|m| - 1];
      assert l + m == (l + m') + [m[|m| - 1]];
      assert m == m' + [m[|m| - 1]];
      OfKindConcat(l, m', k);
      OfKindAppend(l + m', m[|m| - 1], k);
      OfKindAppend(m', m[|m| - 1], k);
    }
  }

  lemma {:induction false} OfKindMembers(l: Rows, k: Kind)
    ensures forall t :: t in OfKind(l, k) <==> t in l && t.kind == k
  {
    if |l| > 0 {
      OfKindMembers(l[..|l| - 1], k);
      assert l == l[..|l| - 1] + [l[|l| - 1]];
    }
  }

  lemma {:induction false} WithKeyMembers<K>(l: Rows, key: Transaction -> K, k: K)
    ensures forall t :: t in WithKey(l, key, k) <==> t in l && key(t) == k
  {
    if |l| > 0 {
      WithKeyMembers(l[..|l| - 1], key, k);
      assert l == l[..|l| - 1] + [l[|l| - 1]];
    }
  }

  /** No row has key k, so its group is empty. */
  lemma {:induction false} WithKeyAbsent<K>(l: Rows, key: Transaction -> K, k: K)
    requires forall i :: 0 <= i < |l| ==> key(l[i]) != k
    ensures WithKey(l, key, k) == []
  {
    if |l| > 0 {
      WithKeyAbsent(l[..|l| - 1], key, k);
    }
  }

  /** Every present key between lo and hi is listed. */
  lemma PresentBetweenComplete(l: Rows, key: Transaction -> int, lo: int, hi: int)
    ensures forall k :: k in PresentBetween(l, key, lo, hi) <==> lo <= k <= hi && k in Keys(l, key)
    decreases hi - lo
  {
    if lo <= hi {
      PresentBetweenComplete(l, key, lo + 1, hi);
    }
  }

  /** The sorted keys are exactly the keys of the rows, strictly increasing. */
  lemma SortedKeysFacts(l: Rows, key: Transaction -> int)
    ensures forall k :: k in SortedKeys(l, key) <==> k in Keys(l, key)
    ensures forall i, j :: 0 <= i < j < |SortedKeys(l, key)| ==> SortedKeys(l, key)[i] < SortedKeys(l, key)[j]
    ensures |l| > 0 ==> |SortedKeys(l, key)| > 0
  {
    if |l| > 0 {
      var lo, hi := MinKey(l, key), MaxKey(l, key);
      PresentBetweenComplete(l, key, lo, hi);
      forall k | k in Keys(l, key) ensures lo <= k <= hi {
        var i :| 0 <= i < |l| && Keys(l, key)[i] == k;
      }
      assert Keys(l, key)[0] in SortedKeys(l, key);
    }
  }
}
