/** The session list: rows re-sorted in place by fresh times, with the window's
    index-parallel ids and labels following. */
module Sidebar {

  datatype Row = Row(id: string, time: int, title: string)

  // ---- The order ----

  predicate Less(a: string, b: string) {
    if b == "" then false
    else if a == "" then true
    else a[0] < b[0] || (a[0] == b[0] && Less(a[1..], b[1..]))
  }

  lemma {:induction false} LessTotal(a: string, b: string)
    ensures a != b <==> Less(a, b) || Less(b, a)
    ensures !(Less(a, b) && Less(b, a))
    decreases |a|
  {
    if a != "" && b != "" {
      LessTotal(a[1..], b[1..]);
      assert a == [a[0]] + a[1..] && b == [b[0]] + b[1..];
    }
  }

  lemma {:induction false} LessTrans(a: string, b: string, c: string)
    requires Less(a, b) && Less(b, c)
    ensures Less(a, c)
    decreases |a|
  {
    if a != "" && a[0] == b[0] == c[0] {
      LessTrans(a[1..], b[1..], c[1..]);
    }
  }

  lemma {:induction false} SameStart(a: string, b: string, k: nat)
    requires k <= |a| && k <= |b| && a[..k] == b[..k]
    ensures k > 0 ==> a[0] == b[0]
  {
    if k > 0 {
      assert a[..k][0] == b[..k][0];
    }
  }

  /** Names in order: up to where they differ they are the same, and there the
      first has the lower character or has ended. */
  lemma {:induction false} LessExact(a: string, b: string)
    ensures Less(a, b) <==> exists k :: 0 <= k <= |a| && k < |b| && a[..k] == b[..k] && (k == |a| || a[k] < b[k])
    decreases |a|
  {
    if b == "" {
    } else if a == "" {
      assert a[..0] == b[..0];
    } else if a[0] == b[0] {
      LessExact(a[1..], b[1..]);
      if Less(a, b) {
        var k :| 0 <= k <= |a[1..]| && k < |b[1..]| && a[1..][..k] == b[1..][..k] && (k == |a[1..]| || a[1..][k] < b[1..][k]);
        assert a[..k + 1] == [a[0]] + a[1..][..k] && b[..k + 1] == [b[0]] + b[1..][..k];
      }
      if k :| 0 <= k <= |a| && k < |b| && a[..k] == b[..k] && (k == |a| || a[k] < b[k]) {
        assert k > 0;
        assert a[1..][..k - 1] == a[..k][1..] && b[1..][..k - 1] == b[..k][1..];
        assert Less(a[1..], b[1..]);
      }
    } else {
      if a[0] < b[0] {
        assert a[..0] == b[..0];
      }
      if k :| 0 <= k <= |a| && k < |b| && a[..k] == b[..k] && (k == |a| || a[k] < b[k]) {
        SameStart(a, b, k);
      }
    }
  }

  /** ORDER BY time_updated DESC, id DESC, and the rows' own comparison. */
  predicate Newer(a: Row, b: Row) {
    a.time > b.time || (a.time == b.time && Less(b.id, a.id))
  }

  predicate Ranked(s: seq<Row>) {
    forall i, j :: 0 <= i < j < |s| ==> Newer(s[i], s[j])
  }

  predicate DistinctIds(s: seq<Row>) {
    forall i, j :: 0 <= i < j < |s| ==> s[i].id != s[j].id
  }

  lemma {:induction false} NewerTotal(a: Row, b: Row)
    requires a.id != b.id
    ensures Newer(a, b) <==> !Newer(b, a)
  {
    LessTotal(a.id, b.id);
  }

  lemma {:induction false} NewerTrans(a: Row, b: Row, c: Row)
    requires Newer(a, b) && Newer(b, c)
    ensures Newer(a, c)
  {
    if a.time == b.time == c.time {
      LessTrans(c.id, b.id, a.id);
    }
  }

  function Placed(s: seq<Row>, x: Row): (r: seq<Row>)
    ensures multiset(r) == multiset(s) + multiset{x}
  {
    if s == [] || !Newer(x, s[|s| - 1]) then s + [x]
    else
      var n := |s| - 1;
      assert s == s[..n] + [s[n]];
      Placed(s[..n], x) + [s[n]]
  }

  function Sorted(s: seq<Row>): (r: seq<Row>)
    ensures multiset(r) == multiset(s)
  {
    if s == [] then []
    else
      var n := |s| - 1;
      assert s == s[..n] + [s[n]];
      Placed(Sorted(s[..n]), s[n])
  }

  lemma {:induction false} PlacedFrom(s: seq<Row>, x: Row)
    ensures forall y :: y in Placed(s, x) <==> y in s || y == x
  {
    forall y ensures y in Placed(s, x) <==> y in s || y == x {
      assert y in Placed(s, x) <==> y in multiset(Placed(s, x));
    }
  }

  lemma {:induction false} SortedFrom(s: seq<Row>)
    ensures |Sorted(s)| == |s| && forall y :: y in Sorted(s) <==> y in s
  {
    assert |multiset(Sorted(s))| == |multiset(s)|;
    forall y ensures y in Sorted(s) <==> y in s {
      assert y in Sorted(s) <==> y in multiset(Sorted(s));
      assert y in s <==> y in multiset(s);
    }
  }

  lemma {:induction false} PlacedRanked(s: seq<Row>, x: Row)
    requires Ranked(s) && forall k :: 0 <= k < |s| ==> s[k].id != x.id
    ensures Ranked(Placed(s, x))
    decreases |s|
  {
    if s != [] {
      var n := |s| - 1;
      NewerTotal(x, s[n]);
      if Newer(x, s[n]) {
        PlacedRanked(s[..n], x);
        PlacedFrom(s[..n], x);
        var head := Placed(s[..n], x);
        forall i | 0 <= i < |head| ensures Newer(head[i], s[n]) {
          assert head[i] in head;
          if head[i] != x {
            var k :| 0 <= k < n && s[..n][k] == head[i];
            assert Newer(s[k], s[n]);
          }
        }
      } else {
        forall i | 0 <= i < n ensures Newer(s[i], x) {
          NewerTrans(s[i], s[n], x);
        }
      }
    }
  }

  lemma {:induction false} SortedRanked(s: seq<Row>)
    requires DistinctIds(s)
    ensures Ranked(Sorted(s))
    decreases |s|
  {
    if s != [] {
      var n := |s| - 1;
      SortedRanked(s[..n]);
      SortedFrom(s[..n]);
      var head := Sorted(s[..n]);
      forall k | 0 <= k < |head| ensures head[k].id != s[n].id {
        assert head[k] in s[..n];
      }
      PlacedRanked(head, s[n]);
    }
  }

  /** The order leaves no choice: two ranked lists of the same rows are one, so
      any sort with this comparison gives the query's order. */
  lemma {:induction false} RankedUnique(a: seq<Row>, b: seq<Row>)
    requires Ranked(a) && Ranked(b) && forall y :: y in a <==> y in b
    ensures a == b
    decreases |a|
  {
    BothEmpty(a, b);
    BothEmpty(b, a);
    if a != [] {
      NoneNewer(a, b);
      NoneNewer(b, a);
      LessTotal(a[0].id, b[0].id);
      assert a[0] == b[0];
      RestSame(a, b);
      RestSame(b, a);
      RankedUnique(a[1..], b[1..]);
      assert a == [a[0]] + a[1..] && b == [b[0]] + b[1..];
    }
  }

  lemma {:induction false} BothEmpty(a: seq<Row>, b: seq<Row>)
    requires forall y :: y in a ==> y in b
    ensures b == [] ==> a == []
  {
    if a != [] {
      assert a[0] in b;
    }
  }

  lemma {:induction false} NoneNewer(a: seq<Row>, b: seq<Row>)
    requires Ranked(a) && a != [] && b != [] && b[0] in a
    ensures a[0] == b[0] || Newer(a[0], b[0])
  {
  }

  lemma {:induction false} RestSame(a: seq<Row>, b: seq<Row>)
    requires a != [] && b != [] && a[0] == b[0] && Ranked(a) && Ranked(b) && forall y :: y in a <==> y in b
    ensures forall y :: y in a[1..] ==> y in b[1..]
  {
    forall y | y in a[1..] ensures y in b[1..] {
      var k :| 0 <= k < |a[1..]| && a[1..][k] == y;
      assert Newer(a[0], y);
      LessTotal(a[0].id, y.id);
      assert y in b && y != b[0];
      var j :| 0 <= j < |b| && b[j] == y;
      assert b[1..][j - 1] == y;
    }
  }

  // ---- The store's queries ----

  /** At most `limit` rows of the table, newest first. */
  function Query(table: seq<Row>, limit: nat): seq<Row> {
    var s := Sorted(table);
    if |s| <= limit then s else s[..limit]
  }

  function IdsOf(s: seq<Row>): (r: seq<string>)
    ensures |r| == |s|
  {
    seq(|s|, i requires 0 <= i < |s| => s[i].id)
  }

  function LabelsOf(s: seq<Row>): (r: seq<string>)
    ensures |r| == |s|
  {
    seq(|s|, i requires 0 <= i < |s| => s[i].title)
  }

  function TimesBy(times: seq<Row>): (m: map<string, int>)
    ensures forall id :: id in m <==> exists k :: 0 <= k < |times| && times[k].id == id
  {
    if times == [] then map[]
    else
      var n := |times| - 1;
      var m := TimesBy(times[..n]);
      assert forall k :: 0 <= k < n ==> times[..n][k] == times[k];
      if times[n].id in m then m else m[times[n].id := times[n].time]
  }

  /** Same number of sessions, and every row's among them. */
  predicate Matches(items: seq<Row>, m: map<string, int>) {
    |m| == |items| && forall i :: 0 <= i < |items| ==> items[i].id in m
  }

  function Freshened(items: seq<Row>, m: map<string, int>): (r: seq<Row>)
    ensures |r| == |items|
  {
    seq(|items|, i requires 0 <= i < |items| => if items[i].id in m then items[i].(time := m[items[i].id]) else items[i])
  }

  /** The sessions listed: as many as fit, the newest first, and none left out
      that is newer than one listed; of one time those with the higher ids. */
  lemma {:induction false} QueryNewest(table: seq<Row>, limit: nat)
    requires DistinctIds(table)
    ensures var shown := Query(table, limit);
            && |shown| == (if |table| <= limit then |table| else limit)
            && (forall i :: 0 <= i < |shown| ==> shown[i] in table)
            && (forall i, j :: 0 <= i < j < |shown| ==> shown[i].time >= shown[j].time)
            && (forall i, j :: 0 <= i < j < |shown| && shown[i].time == shown[j].time ==> Less(shown[j].id, shown[i].id))
            && (forall y, i :: y in table && y !in shown && 0 <= i < |shown| ==>
                  shown[i].time > y.time || (shown[i].time == y.time && Less(y.id, shown[i].id)))
  {
    hide Sorted;
    var all, shown := Sorted(table), Query(table, limit);
    SortedRanked(table);
    SortedFrom(table);
    forall i | 0 <= i < |shown| ensures all[i] in shown && shown[i] in table {
      assert shown[i] == all[i];
    }
    forall y, i | y in table && y !in shown && 0 <= i < |shown| ensures Newer(shown[i], y) {
      assert y in all;
      var k :| 0 <= k < |all| && all[k] == y;
      assert k >= |shown| && Newer(all[i], all[k]);
    }
    forall i, j | 0 <= i < j < |shown| ensures Newer(shown[i], shown[j]) {
      assert Newer(all[i], all[j]);
    }
  }

  // ---- The view and the window's parallel lists ----

  class SessionList {
    var items: seq<Row>
    var sessionIds: seq<string>
    var sessionLabels: seq<string>

    /** Row i of the view is session i of the window's lists. */
    ghost predicate Parallel()
      reads this
    {
      DistinctIds(items) && sessionIds == IdsOf(items) && sessionLabels == LabelsOf(items)
    }

    constructor ()
      ensures Parallel() && items == []
    {
      items, sessionIds, sessionLabels := [], [], [];
    }

    method RefreshSessionList(table: seq<Row>)
      requires DistinctIds(table)
      modifies this
      ensures Parallel() && items == Query(table, 50)
    {
      var sessions := Query(table, 50);
      var ids: seq<string>, labels: seq<string> := [], [];
      for i := 0 to |sessions|
        invariant ids == IdsOf(sessions[..i]) && labels == LabelsOf(sessions[..i])
      {
        labels := labels + [sessions[i].title];
        ids := ids + [sessions[i].id];
      }
      assert sessions[..|sessions|] == sessions;
      QueryDistinct(table, 50);
      items, sessionIds, sessionLabels := sessions, ids, labels;
    }

    /** Fresh times into the rows; re-sorted only when the sessions are the
        same. A row whose session is gone ends it, with earlier rows' times
        already fresh. */
    method SyncModifiedTimes(times: seq<Row>)
      requires Parallel()
      modifies this
      ensures Parallel()
      ensures var m := TimesBy(times);
              if Matches(old(items), m) then items == Sorted(Freshened(old(items), m))
              else && IdsOf(items) == IdsOf(old(items)) && LabelsOf(items) == LabelsOf(old(items))
                   && forall i :: 0 <= i < |items| ==> items[i] == old(items)[i] || items[i] == Freshened(old(items), m)[i]
    {
      hide Sorted, LabelsBy, LabelsIn, AllKnown, TimesBy, Newer;
      var byId := TimesBy(times);
      var idsMatch := |byId| == |items|;
      var i := 0;
      while idsMatch && i < |items|
        invariant 0 <= i <= |items| == |old(items)|
        invariant sessionIds == old(sessionIds) && sessionLabels == old(sessionLabels)
        invariant forall j :: 0 <= j < i ==> items[j] == Freshened(old(items), byId)[j] && old(items)[j].id in byId
        invariant forall j :: i <= j < |items| ==> items[j] == old(items)[j]
        invariant idsMatch ==> |byId| == |items|
        invariant !idsMatch ==> !Matches(old(items), byId)
        decreases |items| - i, idsMatch
      {
        if items[i].id !in byId {
          idsMatch := false;
        } else {
          items := items[i := items[i].(time := byId[items[i].id])];
          i := i + 1;
        }
      }
      assert IdsOf(items) == IdsOf(old(items)) && LabelsOf(items) == LabelsOf(old(items));
      if idsMatch {
        assert items == Freshened(old(items), byId);
        ghost var was := items;
        FreshSame(old(items), byId);
        var changed := SortByModifiedTime();
        ReorderedParallel(was, items);
        if changed {
          OnSessionListReordered();
        }
      }
    }

    method SortByModifiedTime() returns (changed: bool)
      requires DistinctIds(items)
      modifies `items
      ensures items == Sorted(old(items)) && DistinctIds(items)
      ensures !changed ==> items == old(items)
    {
      hide Sorted, Newer;
      var before := items;
      items := Sorted(items);
      SortedDistinct(before);
      SortedFrom(before);
      var i := 0;
      while i < |items|
        invariant 0 <= i <= |items| == |before| && items == Sorted(before)
        invariant forall j :: 0 <= j < i ==> items[j].id == before[j].id
      {
        if items[i].id != before[i].id {
          return true;
        }
        i := i + 1;
      }
      SameIdsSame(items, before);
      changed := false;
    }

    /** Ids and labels follow the view's rows, each label looked up by its
        session; nothing changes if some row's session is unknown. */
    method OnSessionListReordered()
      requires |sessionIds| == |sessionLabels|
      modifies `sessionIds, `sessionLabels
      ensures var m := LabelsBy(old(sessionIds), old(sessionLabels));
              if items != [] && AllKnown(items, m) then sessionIds == IdsOf(items) && sessionLabels == LabelsIn(items, m)
              else sessionIds == old(sessionIds) && sessionLabels == old(sessionLabels)
    {
      hide AllKnown, LabelsIn;
      if sessionIds == [] {
        if items != [] {
          NotKnown(items, LabelsBy(sessionIds, sessionLabels), 0);
        }
        return;
      }
      var labelById: map<string, string> := map[];
      for i := 0 to |sessionIds|
        invariant sessionIds == old(sessionIds) && sessionLabels == old(sessionLabels)
        invariant labelById == LabelsBy(sessionIds[..i], sessionLabels[..i])
      {
        assert sessionIds[..i + 1][..i] == sessionIds[..i] && sessionLabels[..i + 1][..i] == sessionLabels[..i];
        if sessionIds[i] !in labelById {
          labelById := labelById[sessionIds[i] := sessionLabels[i]];
        }
      }
      assert sessionIds[..|sessionIds|] == sessionIds && sessionLabels[..|sessionIds|] == sessionLabels;
      var ids: seq<string>, labels: seq<string> := [], [];
      var i := 0;
      while i < |items|
        invariant 0 <= i <= |items| && |ids| == |labels| == i
        invariant sessionIds == old(sessionIds) && sessionLabels == old(sessionLabels)
        invariant forall j :: 0 <= j < i ==>
          items[j].id in labelById && ids[j] == items[j].id && labels[j] == labelById[items[j].id]
      {
        if items[i].id !in labelById {
          assert !AllKnown(items, labelById) by { NotKnown(items, labelById, i); }
          return;
        }
        ids := ids + [items[i].id];
        labels := labels + [labelById[items[i].id]];
        i := i + 1;
      }
      if ids == [] {
        return;
      }
      KnownLabels(items, labelById, ids, labels);
      sessionIds, sessionLabels := ids, labels;
    }
  }

  // ---- The labels by session ----

  function LabelsBy(ids: seq<string>, labels: seq<string>): (m: map<string, string>)
    requires |ids| == |labels|
    decreases |ids|
  {
    if ids == [] then map[]
    else
      var n := |ids| - 1;
      var m := LabelsBy(ids[..n], labels[..n]);
      if ids[n] in m then m else m[ids[n] := labels[n]]
  }

  predicate AllKnown(items: seq<Row>, m: map<string, string>) {
    forall i :: 0 <= i < |items| ==> items[i].id in m
  }

  function LabelsIn(items: seq<Row>, m: map<string, string>): (r: seq<string>)
    requires AllKnown(items, m)
    ensures |r| == |items|
  {
    seq(|items|, i requires 0 <= i < |items| => m[items[i].id])
  }

  lemma {:induction false} NotKnown(items: seq<Row>, m: map<string, string>, i: nat)
    requires i < |items| && items[i].id !in m
    ensures !AllKnown(items, m)
  {
  }

  lemma {:induction false} KnownLabels(items: seq<Row>, m: map<string, string>, ids: seq<string>, labels: seq<string>)
    requires |ids| == |labels| == |items|
    requires forall j :: 0 <= j < |items| ==> items[j].id in m && ids[j] == items[j].id && labels[j] == m[items[j].id]
    ensures AllKnown(items, m) && ids == IdsOf(items) && labels == LabelsIn(items, m)
  {
  }

  lemma {:induction false} LabelsByHold(rows: seq<Row>)
    requires DistinctIds(rows)
    ensures var m := LabelsBy(IdsOf(rows), LabelsOf(rows));
            && (forall y :: y in rows ==> y.id in m && m[y.id] == y.title)
            && (forall id :: id in m ==> exists y :: y in rows && y.id == id)
    decreases |rows|
  {
    if rows != [] {
      var n := |rows| - 1;
      LabelsByHold(rows[..n]);
      assert IdsOf(rows)[..n] == IdsOf(rows[..n]) && LabelsOf(rows)[..n] == LabelsOf(rows[..n]);
      assert forall y :: y in rows <==> y in rows[..n] || y == rows[n];
    }
  }

  // ---- Sorting keeps the sessions ----

  lemma {:induction false} SortedDistinct(s: seq<Row>)
    requires DistinctIds(s)
    ensures DistinctIds(Sorted(s))
  {
    SortedRanked(s);
    SortedFrom(s);
    var r := Sorted(s);
    forall i, j | 0 <= i < j < |r| ensures r[i].id != r[j].id {
      assert Newer(r[i], r[j]);
      LessTotal(r[i].id, r[j].id);
      assert r[i] in s && r[j] in s;
    }
  }

  lemma {:induction false} SameIdsSame(a: seq<Row>, b: seq<Row>)
    requires |a| == |b| && DistinctIds(b) && (forall y :: y in a <==> y in b)
    requires forall j :: 0 <= j < |a| ==> a[j].id == b[j].id
    ensures a == b
  {
    forall j | 0 <= j < |a| ensures a[j] == b[j] {
      assert a[j] in b;
    }
  }

  lemma {:induction false} QueryDistinct(table: seq<Row>, limit: nat)
    requires DistinctIds(table)
    ensures DistinctIds(Query(table, limit))
  {
    SortedDistinct(table);
  }

  /** A re-sorted view with its labels looked up stays parallel. */
  lemma {:induction false} ReorderedParallel(was: seq<Row>, items: seq<Row>)
    requires DistinctIds(was) && items == Sorted(was)
    ensures var m := LabelsBy(IdsOf(was), LabelsOf(was));
            AllKnown(items, m) && LabelsIn(items, m) == LabelsOf(items)
  {
    SortedFrom(was);
    LabelsByHold(was);
    assert forall i :: 0 <= i < |items| ==> items[i] in was;
  }

  lemma {:induction false} FreshSame(items: seq<Row>, m: map<string, int>)
    requires DistinctIds(items)
    ensures var f := Freshened(items, m);
            DistinctIds(f) && IdsOf(f) == IdsOf(items) && LabelsOf(f) == LabelsOf(items)
  {
  }

  // ---- The in-place sort is the rebuild ----

  lemma {:induction false} SubsetSame<T>(a: set<T>, b: set<T>)
    requires a <= b && |a| == |b|
    ensures a == b
  {
    assert |b - a| == 0;
  }

  function IdSet(s: seq<Row>): (r: set<string>)
    ensures forall id :: id in r <==> exists y :: y in s && y.id == id
  {
    set y | y in s :: y.id
  }

  lemma {:induction false} IdSetSize(rows: seq<Row>)
    requires DistinctIds(rows)
    ensures |IdSet(rows)| == |rows|
    decreases |rows|
  {
    if rows == [] {
      assert IdSet(rows) == {};
    } else {
      var n := |rows| - 1;
      IdSetSize(rows[..n]);
      var s := IdSet(rows[..n]);
      assert forall y :: y in rows <==> y in rows[..n] || y == rows[n];
      assert IdSet(rows) == s + {rows[n].id};
      assert rows[n].id !in s;
    }
  }

  lemma {:induction false} TimesHold(times: seq<Row>)
    requires DistinctIds(times)
    ensures var m := TimesBy(times); m.Keys == IdSet(times) && forall y :: y in times ==> m[y.id] == y.time
    decreases |times|
  {
    if times != [] {
      var n := |times| - 1;
      TimesHold(times[..n]);
      assert forall y :: y in times <==> y in times[..n] || y == times[n];
      assert times[n].id !in TimesBy(times[..n]);
    }
  }

  /** Rows without their titles. */
  function Bare(s: seq<Row>): (r: seq<Row>)
    ensures |r| == |s|
  {
    seq(|s|, i requires 0 <= i < |s| => s[i].(title := ""))
  }

  lemma {:induction false} FreshTimes(items: seq<Row>, times: seq<Row>)
    requires DistinctIds(items) && DistinctIds(times) && Matches(items, TimesBy(times))
    ensures var f := Freshened(items, TimesBy(times));
            IdSet(f) == IdSet(times) && forall a, b :: a in f && b in times && a.id == b.id ==> a.time == b.time
  {
    var m := TimesBy(times);
    var f := Freshened(items, m);
    hide DistinctIds, TimesBy;
    TimesHold(times);
    FreshSame(items, m);
    IdSetSize(f);
    SubsetSame(IdSet(f), m.Keys);
  }

  /** When the store's newest sessions are the rows' sessions, the re-sorted
      rows are in the query's order, each with its time. */
  lemma {:induction false} SortAgrees(items: seq<Row>, times: seq<Row>)
    requires DistinctIds(items) && DistinctIds(times) && Ranked(times) && Matches(items, TimesBy(times))
    ensures Bare(Sorted(Freshened(items, TimesBy(times)))) == Bare(times)
  {
    hide DistinctIds, Ranked, TimesBy, Matches, Sorted, Freshened, Bare, IdSet;
    var f := Freshened(items, TimesBy(times));
    var r := Sorted(f);
    FreshSame(items, TimesBy(times));
    FreshTimes(items, times);
    SortedFrom(f);
    SortedRanked(f);
    BareRanked(r);
    BareRanked(times);
    forall y ensures y in Bare(r) <==> y in Bare(times) {
      SameBare(f, r, times, y);
    }
    RankedUnique(Bare(r), Bare(times));
  }

  lemma {:induction false} BareRanked(s: seq<Row>)
    requires Ranked(s)
    ensures Ranked(Bare(s))
  {
  }

  lemma {:induction false} SameBare(f: seq<Row>, r: seq<Row>, times: seq<Row>, y: Row)
    requires forall x :: x in r <==> x in f
    requires IdSet(f) == IdSet(times)
    requires forall a, b :: a in f && b in times && a.id == b.id ==> a.time == b.time
    ensures y in Bare(r) <==> y in Bare(times)
  {
    if y in Bare(r) {
      var i :| 0 <= i < |r| && Bare(r)[i] == y;
      assert r[i] in f && r[i].id in IdSet(f);
      assert r[i].id in IdSet(times);
      var b :| b in times && b.id == r[i].id;
      var j :| 0 <= j < |times| && times[j] == b;
      assert Bare(times)[j] == y;
    }
    if y in Bare(times) {
      var j :| 0 <= j < |times| && Bare(times)[j] == y;
      assert times[j] in times && times[j].id in IdSet(times);
      assert times[j].id in IdSet(f);
      var a :| a in f && a.id == times[j].id;
      assert a in r;
      var i :| 0 <= i < |r| && r[i] == a;
      assert Bare(r)[i] == y;
    }
  }

  /** With at most fifty rows, an in-place refresh against a table of sessions
      leaves the view exactly as a rebuild from that table would, but for
      titles: the same sessions in the same order. */
  lemma {:induction false} RefreshAgrees(items: seq<Row>, table: seq<Row>)
    requires DistinctIds(items) && DistinctIds(table) && |items| <= 50
    requires Matches(items, TimesBy(Query(table, 50)))
    ensures Bare(Sorted(Freshened(items, TimesBy(Query(table, 50))))) == Bare(Query(table, 50))
  {
    QueryDistinct(table, 50);
    SortedRanked(table);
    SortAgrees(items, Query(table, 50));
  }
}
