/** The replay order of fills: trade date, then recording time, then event id. */
module Ordering {
  import opened Contracts

  predicate LexLe(a: string, b: string) {
    a == "" || (b != "" && (a[0] < b[0] || (a[0] == b[0] && LexLe(a[1..], b[1..]))))
  }

  lemma LexTotal(a: string, b: string)
    ensures LexLe(a, b) || LexLe(b, a)
  {
    if a != "" && b != "" { LexTotal(a[1..], b[1..]); }
  }

  lemma LexTransitive(a: string, b: string, c: string)
    requires LexLe(a, b) && LexLe(b, c)
    ensures LexLe(a, c)
  {
    if a != "" && a[0] == b[0] == c[0] { LexTransitive(a[1..], b[1..], c[1..]); }
  }

  predicate KeyLe(a: Fill, b: Fill) {
    a.tradeDate < b.tradeDate ||
    (a.tradeDate == b.tradeDate &&
     (a.recordedAt < b.recordedAt || (a.recordedAt == b.recordedAt && LexLe(a.id, b.id))))
  }

  lemma KeyTotal(a: Fill, b: Fill)
    ensures KeyLe(a, b) || KeyLe(b, a)
  {
    LexTotal(a.id, b.id);
  }

  lemma KeyTransitive(a: Fill, b: Fill, c: Fill)
    requires KeyLe(a, b) && KeyLe(b, c)
    ensures KeyLe(a, c)
  {
    if LexLe(a.id, b.id) && LexLe(b.id, c.id) { LexTransitive(a.id, b.id, c.id); }
  }

  ghost predicate KeySorted(s: seq<Fill>) {
    forall i, j :: 0 <= i < j < |s| ==> KeyLe(s[i], s[j])
  }

  ghost predicate DateSorted(s: seq<Fill>) {
    forall i, j :: 0 <= i < j < |s| ==> s[i].tradeDate <= s[j].tradeDate
  }

  /** Stable insertion: `e` goes after every element that does not exceed it. */
  function Insert(s: seq<Fill>, e: Fill): (r: seq<Fill>)
    ensures |r| == |s| + 1
    ensures multiset(r) == multiset(s) + multiset{e}
  {
    if s == [] || KeyLe(s[|s| - 1], e) then
      s + [e]
    else
      assert s == s[..|s| - 1] + [s[|s| - 1]];
      Insert(s[..|s| - 1], e) + [s[|s| - 1]]
  }

  function Sort(s: seq<Fill>): (r: seq<Fill>)
    ensures |r| == |s|
    ensures multiset(r) == multiset(s)
  {
    if s == [] then []
    else
      assert s == s[..|s| - 1] + [s[|s| - 1]];
      Insert(Sort(s[..|s| - 1]), s[|s| - 1])
  }

  lemma InsertMembers(s: seq<Fill>, e: Fill, x: Fill)
    ensures x in Insert(s, e) <==> x == e || x in s
  {
    assert x in Insert(s, e) <==> x in multiset(Insert(s, e));
    assert x in s <==> x in multiset(s);
  }

  lemma {:induction false} InsertSorted(s: seq<Fill>, e: Fill)
    requires KeySorted(s)
    ensures KeySorted(Insert(s, e))
  {
    if s == [] {
    } else if KeyLe(s[|s| - 1], e) {
      forall i | 0 <= i < |s| ensures KeyLe(s[i], e) {
        if i < |s| - 1 { KeyTransitive(s[i], s[|s| - 1], e); }
      }
    } else {
      var init, last := s[..|s| - 1], s[|s| - 1];
      InsertSorted(init, e);
      KeyTotal(last, e);
      forall i | 0 <= i < |init| + 1 ensures KeyLe(Insert(init, e)[i], last) {
        InsertMembers(init, e, Insert(init, e)[i]);
      }
    }
  }

  /** `Sort` is what the library sort promises: the same fills in key order. */
  lemma {:induction false} SortSorted(s: seq<Fill>)
    ensures KeySorted(Sort(s)) && multiset(Sort(s)) == multiset(s)
  {
    if s != [] {
      SortSorted(s[..|s| - 1]);
      InsertSorted(Sort(s[..|s| - 1]), s[|s| - 1]);
    }
  }

  /** The fills dated up to `day`, in the order given. */
  function Upto(s: seq<Fill>, day: int): seq<Fill> {
    if s == [] then []
    else
      var r := Upto(s[..|s| - 1], day);
      if s[|s| - 1].tradeDate <= day then r + [s[|s| - 1]] else r
  }

  lemma {:induction false} UptoMembers(s: seq<Fill>, day: int, x: Fill)
    ensures x in Upto(s, day) <==> x in s && x.tradeDate <= day
  {
    if s != [] {
      assert s == s[..|s| - 1] + [s[|s| - 1]];
      UptoMembers(s[..|s| - 1], day, x);
    }
  }

  lemma UptoAll(s: seq<Fill>, day: int)
    requires forall x :: x in s ==> x.tradeDate <= day
    ensures Upto(s, day) == s
  {
    if s != [] {
      assert s == s[..|s| - 1] + [s[|s| - 1]];
      UptoAll(s[..|s| - 1], day);
    }
  }

  lemma DateSortedInit(init: seq<Fill>, last: Fill)
    requires DateSorted(init + [last])
    ensures DateSorted(init) && forall x :: x in init ==> x.tradeDate <= last.tradeDate
  {
    var s := init + [last];
    forall i, j | 0 <= i < j < |init| ensures init[i].tradeDate <= init[j].tradeDate {
      assert s[i] == init[i] && s[j] == init[j];
    }
    forall x | x in init ensures x.tradeDate <= last.tradeDate {
      var i :| 0 <= i < |init| && init[i] == x;
      assert s[i] == x && s[|init|] == last;
    }
  }

  /** On a date-sorted list the selection is a prefix. */
  lemma {:induction false} UptoIsPrefix(s: seq<Fill>, day: int)
    requires DateSorted(s)
    ensures Upto(s, day) <= s
  {
    if s != [] {
      hide DateSorted, Upto;
      var init, last := s[..|s| - 1], s[|s| - 1];
      assert s == init + [last];
      DateSortedInit(init, last);
      UptoIsPrefix(init, day);
      UptoSnoc(init, last, day);
      if last.tradeDate <= day { UptoAll(init, day); }
    }
  }

  lemma UptoSnoc(s: seq<Fill>, x: Fill, day: int)
    ensures Upto(s + [x], day) == if x.tradeDate <= day then Upto(s, day) + [x] else Upto(s, day)
  {
    assert (s + [x])[..|s|] == s;
  }

  lemma InsertSnoc(s: seq<Fill>, x: Fill, e: Fill)
    ensures Insert(s + [x], e) == if KeyLe(x, e) then s + [x] + [e] else Insert(s, e) + [x]
  {
    assert (s + [x])[..|s|] == s;
  }

  lemma UptoInsertAfter(init: seq<Fill>, last: Fill, e: Fill, day: int)
    requires KeyLe(last, e)
    ensures Upto(Insert(init + [last], e), day) ==
      if e.tradeDate <= day then Insert(Upto(init + [last], day), e) else Upto(init + [last], day)
  {
    hide Upto, Insert, KeyLe;
    LaterIsNotLe(last, e);
    UptoSnoc(init, last, day);
    InsertSnoc(init, last, e);
    UptoSnoc(init + [last], e, day);
    if e.tradeDate <= day {
      InsertSnoc(Upto(init, day), last, e);
    }
  }

  lemma UptoInsertBefore(init: seq<Fill>, last: Fill, e: Fill, day: int)
    requires !KeyLe(last, e)
    requires Upto(Insert(init, e), day) == if e.tradeDate <= day then Insert(Upto(init, day), e) else Upto(init, day)
    ensures Upto(Insert(init + [last], e), day) ==
      if e.tradeDate <= day then Insert(Upto(init + [last], day), e) else Upto(init + [last], day)
  {
    hide Upto, Insert, KeyLe;
    KeyTotal(last, e);
    LaterIsNotLe(e, last);
    UptoSnoc(init, last, day);
    InsertSnoc(init, last, e);
    UptoSnoc(Insert(init, e), last, day);
    InsertSnoc(Upto(init, day), last, e);
  }

  lemma {:induction false} UptoInsert(s: seq<Fill>, e: Fill, day: int)
    ensures Upto(Insert(s, e), day) == if e.tradeDate <= day then Insert(Upto(s, day), e) else Upto(s, day)
  {
    if s == [] {
      UptoEmptyInsert(e, day);
    } else {
      hide Upto, Insert, KeyLe;
      var init, last := s[..|s| - 1], s[|s| - 1];
      assert s == init + [last];
      if KeyLe(last, e) {
        UptoInsertAfter(init, last, e, day);
      } else {
        UptoInsert(init, e, day);
        UptoInsertBefore(init, last, e, day);
      }
    }
  }

  lemma UptoEmptyInsert(e: Fill, day: int)
    ensures Insert([], e) == [e] && Upto([], day) == []
    ensures Upto([e], day) == if e.tradeDate <= day then [e] else []
  {
    UptoSnoc([], e, day);
    assert [] + [e] == [e];
  }

  lemma LaterIsNotLe(a: Fill, b: Fill)
    ensures a.tradeDate > b.tradeDate ==> !KeyLe(a, b)
  {
  }

  lemma SortSnoc(s: seq<Fill>, e: Fill)
    ensures Sort(s + [e]) == Insert(Sort(s), e)
  {
    assert (s + [e])[..|s|] == s;
  }

  /** Selecting by date and sorting commute. */
  lemma {:induction false} UptoSort(s: seq<Fill>, day: int)
    ensures Upto(Sort(s), day) == Sort(Upto(s, day))
  {
    if s != [] {
      hide Upto, Sort, Insert;
      var init, last := s[..|s| - 1], s[|s| - 1];
      assert s == init + [last];
      UptoSort(init, day);
      SortSorted(init);
      SortSnoc(init, last);
      UptoInsert(Sort(init), last, day);
      UptoSnoc(init, last, day);
      SortSnoc(Upto(init, day), last);
    }
  }

  lemma SortDateSorted(s: seq<Fill>)
    ensures DateSorted(Sort(s))
    ensures forall x :: x in Sort(s) <==> x in s
  {
    SortSorted(s);
    forall x ensures x in Sort(s) <==> x in s {
      assert x in Sort(s) <==> x in multiset(Sort(s));
      assert x in s <==> x in multiset(s);
    }
  }
}
