/** The per-region block counter of the dungeon report: an insertion-ordered
    dictionary from block name to count, and the breakdown obtained by a
    stable sort on descending count (LINQ OrderByDescending is stable). */
module Tally {

  datatype Entry = Entry(name: string, count: nat)

  /** The keys of an association list, in order. */
  function Names(es: seq<Entry>): (r: seq<string>)
    ensures |r| == |es| && forall i :: 0 <= i < |es| ==> r[i] == es[i].name
  {
    if es == [] then [] else [es[0].name] + Names(es[1..])
  }

  predicate Distinct(s: seq<string>)
  {
    forall i, j :: 0 <= i < j < |s| ==> s[i] != s[j]
  }

  /** The position of a key, or |es| when the key is absent (ContainsKey). */
  function IndexOfName(es: seq<Entry>, name: string): (i: nat)
    ensures i <= |es|
    ensures i < |es| ==> es[i].name == name
    ensures forall j :: 0 <= j < i ==> es[j].name != name
  {
    if es == [] then 0
    else if es[0].name == name then 0
    else 1 + IndexOfName(es[1..], name)
  }

  /** Counting one more block: increment an existing key in place, or add a
      new key with count 1 at the end. */
  function Bump(es: seq<Entry>, name: string): seq<Entry>
  {
    var i := IndexOfName(es, name);
    if i < |es| then es[i := Entry(name, es[i].count + 1)] else es + [Entry(name, 1)]
  }

  /** The dictionary after counting the given block names in order. */
  function TallyOf(names: seq<string>): seq<Entry>
  {
    if names == [] then [] else Bump(TallyOf(names[..|names| - 1]), names[|names| - 1])
  }

  /** Reference definition: each name once, in order of first occurrence. */
  function FirstOccurrences(names: seq<string>): seq<string>
  {
    if names == [] then []
    else
      var before := FirstOccurrences(names[..|names| - 1]);
      var n := names[|names| - 1];
      if n in before then before else before + [n]
  }

  function SumCounts(es: seq<Entry>): nat
  {
    if es == [] then 0 else es[0].count + SumCounts(es[1..])
  }

  // ---------------------------------------------------------------------
  // Properties of the tally

  lemma {:induction false} FirstOccurrencesExact(names: seq<string>)
    ensures Distinct(FirstOccurrences(names))
    ensures forall n :: n in FirstOccurrences(names) <==> n in names
  {
    if names != [] {
      var init := names[..|names| - 1];
      FirstOccurrencesExact(init);
      assert names == init + [names[|names| - 1]];
    }
  }

  lemma BumpNames(es: seq<Entry>, name: string)
    ensures Names(Bump(es, name)) == if name in Names(es) then Names(es) else Names(es) + [name]
  {
    var i := IndexOfName(es, name);
    if i < |es| {
      assert Names(es)[i] == name;
      BumpExistingNames(es, i, Entry(name, es[i].count + 1));
    } else {
      assert name !in Names(es);
      BumpNewNames(es, Entry(name, 1));
    }
  }

  lemma BumpExistingNames(es: seq<Entry>, i: nat, e: Entry)
    requires i < |es| && es[i].name == e.name
    ensures Names(es[i := e]) == Names(es)
  {
    var a, b := Names(es[i := e]), Names(es);
    assert |a| == |b|;
    assert forall j :: 0 <= j < |a| ==> a[j] == b[j];
  }

  lemma BumpNewNames(es: seq<Entry>, e: Entry)
    ensures Names(es + [e]) == Names(es) + [e.name]
  {
    var a, b := Names(es + [e]), Names(es) + [e.name];
    assert |a| == |b|;
    assert forall j :: 0 <= j < |a| ==> a[j] == b[j];
  }

  /** The keys of the tally are the distinct block names, in order of first
      insertion. */
  lemma {:induction false} TallyKeysAreFirstOccurrences(names: seq<string>)
    ensures Names(TallyOf(names)) == FirstOccurrences(names)
  {
    if names != [] {
      var init := names[..|names| - 1];
      TallyKeysAreFirstOccurrences(init);
      BumpNames(TallyOf(init), names[|names| - 1]);
    }
  }

  lemma {:induction false} SumCountsUpdate(es: seq<Entry>, i: nat, e: Entry)
    requires i < |es|
    ensures SumCounts(es[i := e]) + es[i].count == SumCounts(es) + e.count
  {
    if i > 0 {
      SumCountsUpdate(es[1..], i - 1, e);
      assert es[i := e][1..] == es[1..][i - 1 := e];
    } else {
      assert es[i := e][1..] == es[1..];
    }
  }

  lemma {:induction false} SumCountsAppend(es: seq<Entry>, x: Entry)
    ensures SumCounts(es + [x]) == SumCounts(es) + x.count
  {
    if es != [] {
      SumCountsAppend(es[1..], x);
      assert (es + [x])[1..] == es[1..] + [x];
    } else {
      assert ([x])[1..] == [];
    }
  }

  lemma SumCountsBump(es: seq<Entry>, name: string)
    ensures SumCounts(Bump(es, name)) == SumCounts(es) + 1
  {
    var i := IndexOfName(es, name);
    if i < |es| {
      SumCountsUpdate(es, i, Entry(name, es[i].count + 1));
    } else {
      SumCountsAppend(es, Entry(name, 1));
    }
  }

  /** The counts add up to the number of blocks counted. */
  lemma {:induction false} TallySum(names: seq<string>)
    ensures SumCounts(TallyOf(names)) == |names|
  {
    if names != [] {
      TallySum(names[..|names| - 1]);
      SumCountsBump(TallyOf(names[..|names| - 1]), names[|names| - 1]);
    }
  }

  /** How many times a name occurs. */
  function Occurrences(names: seq<string>, n: string): nat
  {
    multiset(names)[n]
  }

  /** One increment keeps every count equal to its name's occurrences. */
  lemma BumpCounts(es: seq<Entry>, init: seq<string>, last: string)
    requires Distinct(Names(es))
    requires forall n :: n in Names(es) <==> n in init
    requires forall j :: 0 <= j < |es| ==> es[j].count == Occurrences(init, es[j].name)
    ensures forall j :: 0 <= j < |Bump(es, last)| ==> Bump(es, last)[j].count == Occurrences(init + [last], Bump(es, last)[j].name)
  {
    var i := IndexOfName(es, last);
    var r := Bump(es, last);
    assert multiset(init + [last]) == multiset(init) + multiset{last};
    if i < |es| {
      forall j | 0 <= j < |r| ensures r[j].count == Occurrences(init + [last], r[j].name) {
        if j != i {
          assert Names(es)[j] == es[j].name && Names(es)[i] == last;
        }
      }
    } else {
      assert last !in Names(es);
    }
  }

  /** Every entry counts exactly the occurrences of its name. */
  lemma {:induction false} TallyCountsOccurrences(names: seq<string>)
    ensures forall j :: 0 <= j < |TallyOf(names)| ==> TallyOf(names)[j].count == Occurrences(names, TallyOf(names)[j].name)
  {
    if names != [] {
      var init := names[..|names| - 1];
      var last := names[|names| - 1];
      TallyCountsOccurrences(init);
      TallyKeysAreFirstOccurrences(init);
      FirstOccurrencesExact(init);
      assert names == init + [last];
      BumpCounts(TallyOf(init), init, last);
    }
  }

  /** The dictionary's keys are distinct, each counted at least once: its
      keys are exactly the distinct names counted. */
  lemma TallyWellFormed(names: seq<string>)
    ensures Distinct(Names(TallyOf(names)))
    ensures forall n :: n in Names(TallyOf(names)) <==> n in names
    ensures forall j :: 0 <= j < |TallyOf(names)| ==> TallyOf(names)[j].count >= 1
  {
    TallyKeysAreFirstOccurrences(names);
    FirstOccurrencesExact(names);
    TallyCountsOccurrences(names);
    forall j | 0 <= j < |TallyOf(names)| ensures TallyOf(names)[j].count >= 1 {
      assert Names(TallyOf(names))[j] == TallyOf(names)[j].name;
    }
  }

  // ---------------------------------------------------------------------
  // The breakdown: a stable sort by descending count

  /** Places e before the first entry whose count is not larger. */
  function InsertByCount(e: Entry, s: seq<Entry>): seq<Entry>
  {
    if s == [] || s[0].count <= e.count then [e] + s else [s[0]] + InsertByCount(e, s[1..])
  }

  function SortByCountDescending(es: seq<Entry>): seq<Entry>
  {
    if es == [] then [] else InsertByCount(es[0], SortByCountDescending(es[1..]))
  }

  predicate NonIncreasing(s: seq<Entry>)
  {
    forall i, j :: 0 <= i < j < |s| ==> s[i].count >= s[j].count
  }

  /** The entries with a given count, in their order. */
  function WithCount(s: seq<Entry>, c: nat): seq<Entry>
  {
    if s == [] then [] else (if s[0].count == c then [s[0]] else []) + WithCount(s[1..], c)
  }

  lemma {:induction false} InsertByCountPermutes(e: Entry, s: seq<Entry>)
    ensures multiset(InsertByCount(e, s)) == multiset(s) + multiset{e}
  {
    if s != [] && s[0].count > e.count {
      InsertByCountPermutes(e, s[1..]);
      assert s == [s[0]] + s[1..];
    }
  }

  lemma {:induction false} InsertByCountSorted(e: Entry, s: seq<Entry>)
    requires NonIncreasing(s)
    ensures NonIncreasing(InsertByCount(e, s))
  {
    if s != [] && s[0].count > e.count {
      var rest := InsertByCount(e, s[1..]);
      InsertByCountSorted(e, s[1..]);
      InsertByCountPermutes(e, s[1..]);
      forall x | x in rest ensures x.count <= s[0].count {
        assert x in multiset(s[1..]) + multiset{e};
        if x != e {
          assert x in s[1..];
        }
      }
      assert forall j :: 0 <= j < |rest| ==> rest[j] in rest;
    }
  }

  lemma {:induction false} WithCountAppend(a: seq<Entry>, b: seq<Entry>, c: nat)
    ensures WithCount(a + b, c) == WithCount(a, c) + WithCount(b, c)
  {
    if a != [] {
      WithCountAppend(a[1..], b, c);
      assert (a + b)[1..] == a[1..] + b;
    } else {
      assert a + b == b;
    }
  }

  lemma WithCountCons(x: Entry, t: seq<Entry>, c: nat)
    ensures WithCount([x] + t, c) == (if x.count == c then [x] else []) + WithCount(t, c)
  {
    assert ([x] + t)[1..] == t;
  }

  /** Inserting into a sorted list keeps, for every count, the order in
      which e stands first. */
  lemma {:induction false} InsertByCountStable(e: Entry, s: seq<Entry>, c: nat)
    requires NonIncreasing(s)
    ensures WithCount(InsertByCount(e, s), c) == WithCount([e] + s, c)
  {
    if s != [] && s[0].count > e.count {
      var t := s[1..];
      assert s == [s[0]] + t;
      InsertByCountStable(e, t, c);
      WithCountCons(s[0], InsertByCount(e, t), c);
      WithCountCons(e, t, c);
      WithCountCons(e, s, c);
      WithCountCons(s[0], t, c);
    }
  }

  lemma {:induction false} InsertByCountSum(e: Entry, s: seq<Entry>)
    ensures SumCounts(InsertByCount(e, s)) == e.count + SumCounts(s)
  {
    if s != [] && s[0].count > e.count {
      InsertByCountSum(e, s[1..]);
    }
  }

  /** Sorting neither adds nor loses counts. */
  lemma {:induction false} SortKeepsSum(es: seq<Entry>)
    ensures SumCounts(SortByCountDescending(es)) == SumCounts(es)
  {
    if es != [] {
      SortKeepsSum(es[1..]);
      InsertByCountSum(es[0], SortByCountDescending(es[1..]));
    }
  }

  /** The breakdown is ordered by descending count, is a permutation of the
      dictionary, and entries of equal count keep their insertion order. */
  lemma {:induction false} SortByCountDescendingCorrect(es: seq<Entry>)
    ensures NonIncreasing(SortByCountDescending(es))
    ensures multiset(SortByCountDescending(es)) == multiset(es)
    ensures forall c :: WithCount(SortByCountDescending(es), c) == WithCount(es, c)
  {
    if es != [] {
      var rest := SortByCountDescending(es[1..]);
      SortByCountDescendingCorrect(es[1..]);
      InsertByCountSorted(es[0], rest);
      InsertByCountPermutes(es[0], rest);
      assert es == [es[0]] + es[1..];
      forall c ensures WithCount(SortByCountDescending(es), c) == WithCount(es, c) {
        InsertByCountStable(es[0], rest, c);
        WithCountAppend([es[0]], rest, c);
        WithCountAppend([es[0]], es[1..], c);
      }
    }
  }

  lemma DistinctCons(x: string, t: seq<string>)
    requires Distinct(t) && x !in t
    ensures Distinct([x] + t)
  {
    forall i, j | 0 <= i < j < |[x] + t| ensures ([x] + t)[i] != ([x] + t)[j] {
      if i == 0 {
        assert ([x] + t)[j] == t[j - 1];
      }
    }
  }

  /** Inserting an entry with a new name keeps the names distinct and adds
      exactly that name. */
  lemma {:induction false} InsertByCountNames(e: Entry, s: seq<Entry>)
    requires Distinct(Names(s)) && e.name !in Names(s)
    ensures Distinct(Names(InsertByCount(e, s)))
    ensures forall n :: n in Names(InsertByCount(e, s)) <==> n == e.name || n in Names(s)
  {
    if s == [] || s[0].count <= e.count {
      assert Names([e] + s) == [e.name] + Names(s);
      DistinctCons(e.name, Names(s));
    } else {
      var t := s[1..];
      assert Names(s) == [s[0].name] + Names(t);
      assert Distinct(Names(t)) by {
        forall i, j | 0 <= i < j < |Names(t)| ensures Names(t)[i] != Names(t)[j] {
          assert Names(s)[i + 1] == Names(t)[i] && Names(s)[j + 1] == Names(t)[j];
        }
      }
      InsertByCountNames(e, t);
      assert Names(InsertByCount(e, s)) == [s[0].name] + Names(InsertByCount(e, t));
      DistinctCons(s[0].name, Names(InsertByCount(e, t)));
    }
  }

  /** Sorting keeps the names, and keeps them distinct. */
  lemma {:induction false} SortKeepsNames(es: seq<Entry>)
    requires Distinct(Names(es))
    ensures Distinct(Names(SortByCountDescending(es)))
    ensures forall n :: n in Names(SortByCountDescending(es)) <==> n in Names(es)
  {
    if es != [] {
      var t := es[1..];
      assert Names(es) == [es[0].name] + Names(t);
      assert Distinct(Names(t)) by {
        forall i, j | 0 <= i < j < |Names(t)| ensures Names(t)[i] != Names(t)[j] {
          assert Names(es)[i + 1] == Names(t)[i] && Names(es)[j + 1] == Names(t)[j];
        }
      }
      assert es[0].name !in Names(t);
      SortKeepsNames(t);
      InsertByCountNames(es[0], SortByCountDescending(t));
    }
  }

  // ---------------------------------------------------------------------
  // The mutable dictionary

  /** The block-counting dictionary of one region's dungeon report. */
  class BlockTally {
    var entries: seq<Entry>
    /** The block names counted since the last Clear. */
    ghost var counted: seq<string>

    ghost predicate Valid()
      reads this
    {
      entries == TallyOf(counted)
    }

    constructor ()
      ensures Valid() && counted == [] && entries == []
    {
      entries := [];
      counted := [];
    }

    /** ContainsKey ? increment : Add(name, 1). */
    method Add(name: string)
      requires Valid()
      modifies this
      ensures Valid() && counted == old(counted) + [name]
    {
      var i := IndexOfName(entries, name);
      if i < |entries| {
        entries := entries[i := Entry(name, entries[i].count + 1)];
      } else {
        entries := entries + [Entry(name, 1)];
      }
      counted := counted + [name];
      assert counted[..|counted| - 1] == old(counted);
    }

    method Clear()
      modifies this
      ensures Valid() && counted == [] && entries == []
    {
      entries := [];
      counted := [];
    }
  }
}
