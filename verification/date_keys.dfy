/** The date keys of a forecast series and the two things every service does
    with them: sort them newest first (`Object.keys(..).sort((a, b) =>
    Number(b) - Number(a))`) and take the first one, in that order, that
    passes a test. The sort is stated for any numbering `num` of the
    elements, then used with `Number`. */
module DateKeys {
  import opened Wrappers
  import opened Calendar
  import opened Lib

  predicate AllKeys(ks: seq<string>) {
    forall i | 0 <= i < |ks| :: IsDateKey(ks[i])
  }

  predicate Distinct(ks: seq<string>) {
    forall i, j | 0 <= i < j < |ks| :: ks[i] != ks[j]
  }

  /** `Number(k)` on a key; other strings do not occur as keys. */
  function Number(k: string): int {
    if IsDateKey(k) then KeyNumber(k) else 0
  }

  /** Strictly decreasing by `num`. */
  predicate Descending(ks: seq<string>, num: string -> int) {
    forall i, j | 0 <= i < j < |ks| :: num(ks[i]) > num(ks[j])
  }

  /** Inserts `k` before the first element whose number is not larger. */
  function Insert(k: string, sorted: seq<string>, num: string -> int): (r: seq<string>)
    ensures multiset(r) == multiset(sorted) + multiset{k}
  {
    if |sorted| == 0 then [k]
    else if num(k) >= num(sorted[0]) then [k] + sorted
    else
      var r := [sorted[0]] + Insert(k, sorted[1..], num);
      assert sorted == [sorted[0]] + sorted[1..];
      r
  }

  /** The elements sorted by descending `num` (an insertion sort). */
  function SortDescending(ks: seq<string>, num: string -> int): (r: seq<string>)
    ensures multiset(r) == multiset(ks)
  {
    if |ks| == 0 then []
    else
      assert ks == [ks[0]] + ks[1..];
      Insert(ks[0], SortDescending(ks[1..], num), num)
  }

  lemma {:induction false} InsertDescending(k: string, sorted: seq<string>, num: string -> int)
    requires Descending(sorted, num)
    requires forall x | x in sorted :: num(x) != num(k)
    ensures Descending(Insert(k, sorted, num), num)
  {
    if |sorted| > 0 && num(k) < num(sorted[0]) {
      var head, tail := sorted[0], sorted[1..];
      var rest := Insert(k, tail, num);
      InsertDescending(k, tail, num);
      forall x | x in rest
        ensures num(x) < num(head)
      {
        assert x in multiset(rest);
        if x != k {
          assert x in multiset(tail);
          var j :| 0 <= j < |tail| && tail[j] == x;
          assert sorted[j + 1] == x;
        }
      }
      ConsDescending(head, rest, num);
    } else if |sorted| > 0 {
      assert num(k) != num(sorted[0]);
      ConsDescending(k, sorted, num);
    }
  }

  lemma ConsDescending(head: string, rest: seq<string>, num: string -> int)
    requires Descending(rest, num)
    requires forall x | x in rest :: num(x) < num(head)
    ensures Descending([head] + rest, num)
  {
    var r := [head] + rest;
    forall i, j | 0 <= i < j < |r|
      ensures num(r[i]) > num(r[j])
    {
      assert r[j] == rest[j - 1];
      if i > 0 {
        assert r[i] == rest[i - 1];
      }
    }
  }

  /** Sorting elements with pairwise different numbers puts them in strictly
      descending order. */
  lemma {:induction false} SortDescendingSorted(ks: seq<string>, num: string -> int)
    requires forall i, j | 0 <= i < j < |ks| :: num(ks[i]) != num(ks[j])
    ensures Descending(SortDescending(ks, num), num)
  {
    if |ks| > 0 {
      var tail := ks[1..];
      assert forall i, j | 0 <= i < j < |tail| :: num(tail[i]) != num(tail[j]) by {
        forall i, j | 0 <= i < j < |tail|
          ensures num(tail[i]) != num(tail[j])
        {
          assert tail[i] == ks[i + 1] && tail[j] == ks[j + 1];
        }
      }
      SortDescendingSorted(tail, num);
      var sortedTail := SortDescending(tail, num);
      forall x | x in sortedTail
        ensures num(x) != num(ks[0])
      {
        assert x in multiset(tail);
        var j :| 0 <= j < |tail| && tail[j] == x;
        assert ks[j + 1] == x;
      }
      InsertDescending(ks[0], sortedTail, num);
    }
  }

  /** Distinct keys have distinct numbers. */
  lemma KeysNumberedApart(ks: seq<string>)
    requires AllKeys(ks) && Distinct(ks)
    ensures forall i, j | 0 <= i < j < |ks| :: Number(ks[i]) != Number(ks[j])
  {
    forall i, j | 0 <= i < j < |ks|
      ensures Number(ks[i]) != Number(ks[j])
    {
      KeyOrderIsDateOrder(ks[i], ks[j]);
    }
  }

  /** Keys sorted by `Number` (what the services list as their dates): every
      key exactly once, newest first. */
  lemma SortedKeys(ks: seq<string>)
    requires AllKeys(ks) && Distinct(ks)
    ensures multiset(SortDescending(ks, Number)) == multiset(ks)
    ensures Descending(SortDescending(ks, Number), Number)
    ensures Distinct(SortDescending(ks, Number))
    ensures forall k :: k in SortDescending(ks, Number) <==> k in ks
    ensures AllKeys(SortDescending(ks, Number))
  {
    KeysNumberedApart(ks);
    SortDescendingSorted(ks, Number);
    SortKeepsMembers(ks, Number);
    AllKeysOfMembers(SortDescending(ks, Number), ks);
  }

  lemma SortKeepsMembers(ks: seq<string>, num: string -> int)
    ensures forall k :: k in SortDescending(ks, num) <==> k in ks
  {
    var sorted := SortDescending(ks, num);
    forall k
      ensures k in sorted <==> k in ks
    {
      assert k in ks <==> k in multiset(ks);
      assert k in sorted <==> k in multiset(sorted);
    }
  }

  lemma AllKeysOfMembers(a: seq<string>, b: seq<string>)
    requires AllKeys(b) && forall k | k in a :: k in b
    ensures AllKeys(a)
  {
    forall i | 0 <= i < |a|
      ensures IsDateKey(a[i])
    {
      assert a[i] in b;
      var j :| 0 <= j < |b| && b[j] == a[i];
    }
  }

  /** The first element of `ks` that passes `q`, if any. */
  function FirstWhere(ks: seq<string>, q: string -> bool): (r: Option<string>)
    ensures r.Some? ==> r.value in ks && q(r.value)
    ensures r.None? <==> forall i | 0 <= i < |ks| :: !q(ks[i])
  {
    if |ks| == 0 then None
    else if q(ks[0]) then Some(ks[0])
    else
      var r := FirstWhere(ks[1..], q);
      assert forall i | 1 <= i < |ks| :: ks[i] == ks[1..][i - 1];
      r
  }

  /** The match at the first index that passes is the one `FirstWhere` finds. */
  lemma {:induction false} FirstWhereAt(ks: seq<string>, q: string -> bool, i: int)
    requires 0 <= i < |ks| && q(ks[i])
    requires forall j | 0 <= j < i :: !q(ks[j])
    ensures FirstWhere(ks, q) == Some(ks[i])
  {
    if i > 0 {
      FirstWhereAt(ks[1..], q, i - 1);
    }
  }

  /** In a descending list, the first match is the one with the largest number. */
  lemma {:induction false} FirstWhereIsLargest(ks: seq<string>, q: string -> bool, num: string -> int)
    requires Descending(ks, num)
    ensures FirstWhere(ks, q).Some? ==>
              forall i | 0 <= i < |ks| && q(ks[i]) :: num(ks[i]) <= num(FirstWhere(ks, q).value)
  {
    if |ks| > 0 && !q(ks[0]) {
      FirstWhereIsLargest(ks[1..], q, num);
      assert forall i | 1 <= i < |ks| :: ks[i] == ks[1..][i - 1];
    }
  }

  /** The newest key passing `q`: the first match over the sorted keys. */
  function Latest(ks: seq<string>, q: string -> bool): Option<string> {
    FirstWhere(SortDescending(ks, Number), q)
  }

  /** `Latest` finds nothing exactly when no key passes `q`; otherwise it
      finds a key that passes `q` and whose date is not before the date of
      any other key that passes it. */
  lemma LatestIsNewest(ks: seq<string>, q: string -> bool)
    requires AllKeys(ks) && Distinct(ks)
    ensures Latest(ks, q).None? <==> forall k | k in ks :: !q(k)
    ensures Latest(ks, q).Some? ==>
              var l := Latest(ks, q).value;
              l in ks && q(l) && forall k | k in ks && q(k) :: Le(KeyDate(k), KeyDate(l))
  {
    var sorted := SortDescending(ks, Number);
    SortedKeys(ks);
    FirstWhereIsLargest(sorted, q, Number);
    if Latest(ks, q).Some? {
      var l := Latest(ks, q).value;
      forall k | k in ks && q(k)
        ensures Le(KeyDate(k), KeyDate(l))
      {
        var i :| 0 <= i < |sorted| && sorted[i] == k;
        KeyOrderIsDateOrder(k, l);
      }
    } else {
      forall k | k in ks
        ensures !q(k)
      {
        var i :| 0 <= i < |sorted| && sorted[i] == k;
      }
    }
  }

  /** A key passing `q` whose date is not before that of any other key
      passing `q` is the one `Latest` finds. */
  lemma LatestIsUnique(ks: seq<string>, q: string -> bool, k: string)
    requires AllKeys(ks) && Distinct(ks)
    requires k in ks && q(k) && forall j | j in ks && q(j) :: Le(KeyDate(j), KeyDate(k))
    ensures Latest(ks, q) == Some(k)
  {
    LatestIsNewest(ks, q);
    var l := Latest(ks, q).value;
    KeyOrderIsDateOrder(k, l);
    KeyOrderIsDateOrder(l, k);
    LeTotal(KeyDate(k), KeyDate(l));
  }
}
