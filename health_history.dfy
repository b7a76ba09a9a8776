/**
 * groupMeasurementsByDate: the history screen's list, newest first, split
 * into "Today", "Yesterday", "Last week" and one group per older date.
 *
 * The clock and the time zone are outside the model: `today` is the current
 * date and `dayOf` maps a Unix-millisecond timestamp to its date in the system
 * zone, both as day numbers; `dateString` is LocalDate.toString of a day.
 * The returned insertion-ordered map is a sequence of (key, group) pairs.
 */
module HealthHistory {
  import opened Measurements

  type Group = (string, seq<Measurement>)

  predicate Descending(s: seq<Measurement>) {
    forall i, j :: 0 <= i < j < |s| ==> s[i].timestamp >= s[j].timestamp
  }

  /** A measurement no older than the head of a newest-first sequence extends it. */
  lemma ConsDescending(m: Measurement, t: seq<Measurement>)
    requires Descending(t) && (t == [] || m.timestamp >= t[0].timestamp)
    ensures Descending([m] + t)
  {
    forall i, j | 0 <= i < j < |t| + 1
      ensures ([m] + t)[i].timestamp >= ([m] + t)[j].timestamp
    {
      if i == 0 && j > 1 {
        assert t[0].timestamp >= t[j - 1].timestamp;
      }
    }
  }

  /** Insert m before the first element that is strictly older. */
  function InsertDescending(m: Measurement, s: seq<Measurement>): (r: seq<Measurement>)
    ensures |r| == |s| + 1
  {
    if s == [] || m.timestamp >= s[0].timestamp then [m] + s
    else [s[0]] + InsertDescending(m, s[1..])
  }

  /** Insertion keeps a newest-first list newest first and adds exactly the one element. */
  lemma {:induction false} InsertDescendingSorted(m: Measurement, s: seq<Measurement>)
    requires Descending(s)
    ensures Descending(InsertDescending(m, s))
    ensures multiset(InsertDescending(m, s)) == multiset(s) + multiset{m}
    ensures InsertDescending(m, s)[0] == if s == [] || m.timestamp >= s[0].timestamp then m else s[0]
  {
    if s == [] || m.timestamp >= s[0].timestamp {
      ConsDescending(m, s);
    } else {
      assert s == [s[0]] + s[1..];
      assert Descending(s[1..]) by {
        forall i, j | 0 <= i < j < |s| - 1 ensures s[1..][i].timestamp >= s[1..][j].timestamp {
          assert s[1..][i] == s[i + 1] && s[1..][j] == s[j + 1];
        }
      }
      var rest := InsertDescending(m, s[1..]);
      InsertDescendingSorted(m, s[1..]);
      ConsDescending(s[0], rest);
      assert multiset([s[0]] + rest) == multiset{s[0]} + multiset(rest);
    }
  }

  /** `sortedByDescending { it.timestamp }`: the measurements, newest first. */
  function SortByDescendingTime(s: seq<Measurement>): (r: seq<Measurement>)
    ensures Descending(r)
    ensures multiset(r) == multiset(s)
    ensures |r| == |s|
  {
    if s == [] then []
    else
      assert s == [s[0]] + s[1..];
      var t := SortByDescendingTime(s[1..]);
      InsertDescendingSorted(s[0], t);
      InsertDescending(s[0], t)
  }

  /** The `when` choosing a measurement's group from its day. */
  function GroupKey(day: int, today: int, dateString: int -> string): (key: string)
    ensures day == today ==> key == "Today"
    ensures day == today - 1 ==> key == "Yesterday"
    ensures today - 7 < day && day != today && day != today - 1 ==> key == "Last week"
    ensures day <= today - 7 ==> key == dateString(day)
  {
    if day == today then "Today"
    else if day == today - 1 then "Yesterday"
    else if day > today - 7 then "Last week"
    else dateString(day)
  }

  /** LocalDate.toString is an ISO date, never one of the three labels. */
  ghost predicate IsoDates(dateString: int -> string) {
    forall d :: dateString(d) != "Today" && dateString(d) != "Yesterday" && dateString(d) != "Last week"
  }

  /** With ISO date strings each label names exactly its days; "Last week" also takes every future day. */
  lemma GroupKeyLabels(day: int, today: int, dateString: int -> string)
    requires IsoDates(dateString)
    ensures GroupKey(day, today, dateString) == "Today" <==> day == today
    ensures GroupKey(day, today, dateString) == "Yesterday" <==> day == today - 1
    ensures GroupKey(day, today, dateString) == "Last week" <==> today - 7 < day && day != today && day != today - 1
    ensures day > today ==> GroupKey(day, today, dateString) == "Last week"
  {
    assert dateString(day) != "Today" && dateString(day) != "Yesterday" && dateString(day) != "Last week";
  }

  /** The key of every measurement of a list. */
  function KeysOf(items: seq<Measurement>, today: int, dayOf: int -> int, dateString: int -> string): (ks: seq<string>)
    ensures |ks| == |items|
    ensures forall i :: 0 <= i < |items| ==> ks[i] == GroupKey(dayOf(items[i].timestamp), today, dateString)
  {
    seq(|items|, i requires 0 <= i < |items| => GroupKey(dayOf(items[i].timestamp), today, dateString))
  }

  predicate Distinct(s: seq<string>) {
    forall a, b :: 0 <= a < b < |s| ==> s[a] != s[b]
  }

  /** The distinct elements of s in order of first occurrence. */
  function Dedup(s: seq<string>): (d: seq<string>)
    ensures Distinct(d)
    ensures forall x :: x in d <==> x in s
  {
    if s == [] then []
    else
      var p := Dedup(s[..|s| - 1]);
      assert forall x :: x in s <==> x in s[..|s| - 1] || x == s[|s| - 1] by {
        assert s == s[..|s| - 1] + [s[|s| - 1]];
      }
      if s[|s| - 1] in p then p else p + [s[|s| - 1]]
  }

  /** The keys of a grouping, in order. */
  function GroupKeys(groups: seq<Group>): (ks: seq<string>)
    ensures |ks| == |groups|
    ensures forall a :: 0 <= a < |groups| ==> ks[a] == groups[a].0
  {
    seq(|groups|, a requires 0 <= a < |groups| => groups[a].0)
  }

  /** All groups' members, group after group. */
  function Flatten(groups: seq<Group>): seq<Measurement> {
    if groups == [] then [] else groups[0].1 + Flatten(groups[1..])
  }

  /** The members of items[..n] whose key is k, in list order. */
  function Pick(items: seq<Measurement>, ks: seq<string>, k: string, n: nat): (p: seq<Measurement>)
    requires n <= |items| == |ks|
    ensures forall x :: x in p ==> x in items[..n]
  {
    if n == 0 then []
    else
      var p := Pick(items, ks, k, n - 1);
      assert forall x :: x in items[..n - 1] ==> x in items[..n] by {
        assert items[..n] == items[..n - 1] + [items[n - 1]];
      }
      p + (if ks[n - 1] == k then [items[n - 1]] else [])
  }

  /** `grouped.getOrPut(key) { mutableListOf() }.add(m)`. */
  function Add(groups: seq<Group>, key: string, m: Measurement): (r: seq<Group>)
    ensures |r| == if key in GroupKeys(groups) then |groups| else |groups| + 1
  {
    if groups == [] then [(key, [m])]
    else if groups[0].0 == key then [(key, groups[0].1 + [m])] + groups[1..]
    else
      assert key in GroupKeys(groups) <==> key in GroupKeys(groups[1..]) by {
        assert GroupKeys(groups) == [groups[0].0] + GroupKeys(groups[1..]);
      }
      [groups[0]] + Add(groups[1..], key, m)
  }

  /** A new key is appended at the end; an existing key keeps its place. */
  lemma {:induction false} AddKeys(groups: seq<Group>, key: string, m: Measurement)
    ensures GroupKeys(Add(groups, key, m)) == if key in GroupKeys(groups) then GroupKeys(groups) else GroupKeys(groups) + [key]
  {
    if groups != [] {
      var r := Add(groups, key, m);
      assert GroupKeys(groups) == [groups[0].0] + GroupKeys(groups[1..]);
      assert GroupKeys(r) == [r[0].0] + GroupKeys(r[1..]);
      if groups[0].0 != key {
        AddKeys(groups[1..], key, m);
      }
    }
  }

  /** Adding puts exactly one more measurement into the grouping. */
  lemma {:induction false} AddFlatten(groups: seq<Group>, key: string, m: Measurement)
    ensures multiset(Flatten(Add(groups, key, m))) == multiset(Flatten(groups)) + multiset{m}
  {
    if groups != [] {
      var r := Add(groups, key, m);
      if groups[0].0 == key {
        assert r[1..] == groups[1..];
      } else {
        assert r[1..] == Add(groups[1..], key, m);
        AddFlatten(groups[1..], key, m);
      }
    }
  }

  /** With distinct keys, only the group of the key grows, by m at its end. */
  lemma {:induction false} AddContents(groups: seq<Group>, key: string, m: Measurement)
    requires Distinct(GroupKeys(groups))
    ensures var r := Add(groups, key, m);
      forall a :: 0 <= a < |r| ==>
        r[a].1 == (if a < |groups| then groups[a].1 else []) + (if r[a].0 == key then [m] else [])
  {
    if groups != [] {
      var r := Add(groups, key, m);
      AddKeys(groups, key, m);
      if groups[0].0 == key {
        forall a | 1 <= a < |groups|
          ensures groups[a].0 != key
        {
          assert GroupKeys(groups)[0] != GroupKeys(groups)[a];
        }
      } else {
        assert Distinct(GroupKeys(groups[1..])) by {
          forall a, b | 0 <= a < b < |groups| - 1
            ensures groups[1..][a].0 != groups[1..][b].0
          {
            assert GroupKeys(groups)[a + 1] != GroupKeys(groups)[b + 1];
          }
        }
        AddContents(groups[1..], key, m);
        assert r[1..] == Add(groups[1..], key, m);
      }
    }
  }

  lemma {:induction false} PickAbsent(items: seq<Measurement>, ks: seq<string>, k: string, n: nat)
    requires n <= |items| == |ks| && k !in ks[..n]
    ensures Pick(items, ks, k, n) == []
  {
    if n > 0 {
      assert ks[..n - 1] == ks[..n][..n - 1];
      PickAbsent(items, ks, k, n - 1);
    }
  }

  /** The i-th item is among the members picked for its own key. */
  lemma {:induction false} PickHolds(items: seq<Measurement>, ks: seq<string>, n: nat, i: nat)
    requires i < n <= |items| == |ks|
    ensures items[i] in Pick(items, ks, ks[i], n)
  {
    if i < n - 1 {
      PickHolds(items, ks, n - 1, i);
    }
  }

  lemma {:induction false} PickDescending(items: seq<Measurement>, ks: seq<string>, k: string, n: nat)
    requires n <= |items| == |ks| && Descending(items)
    ensures Descending(Pick(items, ks, k, n))
  {
    if n > 0 {
      PickDescending(items, ks, k, n - 1);
      var p := Pick(items, ks, k, n - 1);
      forall x | x in p
        ensures x.timestamp >= items[n - 1].timestamp
      {
        var j :| 0 <= j < n - 1 && items[j] == x;
      }
    }
  }

  /** The loop's invariant after the first n measurements. */
  predicate GroupsOfPrefix(groups: seq<Group>, items: seq<Measurement>, ks: seq<string>, n: nat)
    requires n <= |items| == |ks|
  {
    && GroupKeys(groups) == Dedup(ks[..n])
    && (forall a :: 0 <= a < |groups| ==> groups[a].1 == Pick(items, ks, groups[a].0, n))
    && multiset(Flatten(groups)) == multiset(items[..n])
  }

  lemma AddStep(groups: seq<Group>, items: seq<Measurement>, ks: seq<string>, n: nat)
    requires n < |items| == |ks|
    requires GroupsOfPrefix(groups, items, ks, n)
    ensures GroupsOfPrefix(Add(groups, ks[n], items[n]), items, ks, n + 1)
  {
    AddStepKeys(groups, items, ks, n);
    AddStepContents(groups, items, ks, n);
    AddStepFlatten(groups, items, n, ks[n]);
  }

  lemma AddStepFlatten(groups: seq<Group>, items: seq<Measurement>, n: nat, key: string)
    requires n < |items|
    requires multiset(Flatten(groups)) == multiset(items[..n])
    ensures multiset(Flatten(Add(groups, key, items[n]))) == multiset(items[..n + 1])
  {
    AddFlatten(groups, key, items[n]);
    assert items[..n + 1] == items[..n] + [items[n]];
  }

  lemma AddStepKeys(groups: seq<Group>, items: seq<Measurement>, ks: seq<string>, n: nat)
    requires n < |items| == |ks|
    requires GroupKeys(groups) == Dedup(ks[..n])
    ensures GroupKeys(Add(groups, ks[n], items[n])) == Dedup(ks[..n + 1])
  {
    AddKeys(groups, ks[n], items[n]);
    assert ks[..n + 1][..n] == ks[..n];
  }

  lemma AddStepContents(groups: seq<Group>, items: seq<Measurement>, ks: seq<string>, n: nat)
    requires n < |items| == |ks|
    requires GroupKeys(groups) == Dedup(ks[..n])
    requires forall a :: 0 <= a < |groups| ==> groups[a].1 == Pick(items, ks, groups[a].0, n)
    ensures var r := Add(groups, ks[n], items[n]);
      forall a :: 0 <= a < |r| ==> r[a].1 == Pick(items, ks, r[a].0, n + 1)
  {
    var key, m := ks[n], items[n];
    var r := Add(groups, key, m);
    AddKeys(groups, key, m);
    AddContents(groups, key, m);
    forall a | 0 <= a < |r|
      ensures r[a].1 == Pick(items, ks, r[a].0, n + 1)
    {
      assert r[a].0 == GroupKeys(r)[a];
      if a < |groups| {
        assert r[a].0 == GroupKeys(groups)[a] == groups[a].0;
      } else {
        assert r[a].0 == key && key !in ks[..n];
        PickAbsent(items, ks, key, n);
      }
    }
  }

  /**
   * groupMeasurementsByDate. The keys are the distinct keys of the sorted
   * list in order of their first, most recent, member; each group holds
   * exactly the measurements of its key, newest first; and together the
   * groups hold every measurement once.
   */
  method GroupMeasurementsByDate(measurements: seq<Measurement>, today: int, dayOf: int -> int, dateString: int -> string)
    returns (grouped: seq<Group>)
    ensures var sorted := SortByDescendingTime(measurements);
      var ks := KeysOf(sorted, today, dayOf, dateString);
      && GroupKeys(grouped) == Dedup(ks)
      && (forall a :: 0 <= a < |grouped| ==> grouped[a].1 == Pick(sorted, ks, grouped[a].0, |sorted|))
    ensures Distinct(GroupKeys(grouped))
    ensures forall a :: 0 <= a < |grouped| ==> grouped[a].1 != [] && Descending(grouped[a].1)
    ensures multiset(Flatten(grouped)) == multiset(measurements)
    ensures |Flatten(grouped)| == |measurements|
  {
    var sorted := SortByDescendingTime(measurements);
    var ks := KeysOf(sorted, today, dayOf, dateString);
    grouped := [];
    for i := 0 to |sorted|
      invariant GroupsOfPrefix(grouped, sorted, ks, i)
    {
      var m := sorted[i];
      var groupKey := GroupKey(dayOf(m.timestamp), today, dateString);
      AddStep(grouped, sorted, ks, i);
      grouped := Add(grouped, groupKey, m);
    }
    GroupsOfWhole(grouped, sorted, ks);
  }

  /** Once every measurement is visited, the groups are non-empty, newest first and hold the whole input. */
  lemma GroupsOfWhole(groups: seq<Group>, items: seq<Measurement>, ks: seq<string>)
    requires |items| == |ks| && Descending(items)
    requires GroupsOfPrefix(groups, items, ks, |items|)
    ensures GroupKeys(groups) == Dedup(ks) && Distinct(GroupKeys(groups))
    ensures forall a :: 0 <= a < |groups| ==> groups[a].1 != [] && Descending(groups[a].1)
    ensures multiset(Flatten(groups)) == multiset(items)
    ensures |Flatten(groups)| == |items|
  {
    assert items[..|items|] == items && ks[..|ks|] == ks;
    forall a | 0 <= a < |groups|
      ensures groups[a].1 != [] && Descending(groups[a].1)
    {
      var k := groups[a].0;
      assert k in GroupKeys(groups);
      var i :| 0 <= i < |ks| && ks[i] == k;
      PickHolds(items, ks, |items|, i);
      PickDescending(items, ks, k, |items|);
    }
    assert |multiset(Flatten(groups))| == |multiset(items)|;
  }

  /** Every measurement lands in the group named by its own date. */
  lemma EveryMeasurementInItsGroup(grouped: seq<Group>, sorted: seq<Measurement>, ks: seq<string>, i: nat)
    requires |ks| == |sorted| && i < |sorted|
    requires GroupKeys(grouped) == Dedup(ks)
    requires forall a :: 0 <= a < |grouped| ==> grouped[a].1 == Pick(sorted, ks, grouped[a].0, |sorted|)
    ensures exists a :: 0 <= a < |grouped| && grouped[a].0 == ks[i] && sorted[i] in grouped[a].1
  {
    assert ks[i] in GroupKeys(grouped);
    var a :| 0 <= a < |grouped| && GroupKeys(grouped)[a] == ks[i];
    PickHolds(sorted, ks, |sorted|, i);
  }
}
