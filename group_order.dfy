/**
 * The display order of a project's service groups: Python's
 * `sorted(items, key=total, reverse=True)`, a stable sort, so that groups
 * come in non-increasing order of total and groups with equal totals stay
 * in the order the dictionary holds them (order of first occurrence).
 *
 * `SortByTotal` is an insertion sort with that behaviour, and
 * `StableSortUnique` shows that the behaviour determines the result: any
 * stable non-increasing sort of the same groups by the same totals, the
 * library's included, returns exactly the same sequence.  The totals are
 * exact sums of cents; floating-point sums may tie or not tie differently.
 */
module GroupOrder {
  import opened CostData
  import opened ServiceGroups

  /** The groups are in non-increasing order of total. */
  predicate Descending(gs: seq<ServiceGroup>)
  {
    forall i, j :: 0 <= i < j < |gs| ==> gs[i].total >= gs[j].total
  }

  /** The groups of `gs` whose total is `t`, in their order in `gs`. */
  function WithTotal(gs: seq<ServiceGroup>, t: Cents): seq<ServiceGroup>
  {
    if gs == [] then [] else (if gs[0].total == t then [gs[0]] else []) + WithTotal(gs[1..], t)
  }

  /** `sorted` is a stable non-increasing rearrangement of `gs`. */
  ghost predicate StablySortedFrom(sorted: seq<ServiceGroup>, gs: seq<ServiceGroup>)
  {
    && Descending(sorted)
    && multiset(sorted) == multiset(gs)
    && forall t :: WithTotal(sorted, t) == WithTotal(gs, t)
  }

  /** Puts `g` in front of the first group whose total is not larger than its own. */
  function Insert(g: ServiceGroup, gs: seq<ServiceGroup>): seq<ServiceGroup>
  {
    if gs == [] || g.total >= gs[0].total then [g] + gs else [gs[0]] + Insert(g, gs[1..])
  }

  /** The groups in display order: each group is inserted into the sorted rest. */
  function SortByTotal(gs: seq<ServiceGroup>): seq<ServiceGroup>
  {
    if gs == [] then [] else Insert(gs[0], SortByTotal(gs[1..]))
  }

  /**
   * `SortByTotal` is a stable sort by non-increasing total: it returns a
   * rearrangement of the groups in non-increasing order of total, and the
   * groups sharing a total keep their relative order.
   */
  lemma {:induction false} SortByTotalStable(gs: seq<ServiceGroup>)
    ensures StablySortedFrom(SortByTotal(gs), gs)
  {
    if gs != [] {
      SortByTotalStable(gs[1..]);
      InsertStable(gs[0], SortByTotal(gs[1..]));
      assert gs == [gs[0]] + gs[1..];
    }
  }

  lemma DescendingHead(gs: seq<ServiceGroup>)
    requires Descending(gs) && gs != []
    ensures forall x :: x in gs ==> x.total <= gs[0].total
  {
    forall x | x in gs
      ensures x.total <= gs[0].total
    {
      var i :| 0 <= i < |gs| && gs[i] == x;
    }
  }

  lemma {:induction false} WithTotalMembers(gs: seq<ServiceGroup>, t: Cents)
    ensures forall x :: x in WithTotal(gs, t) <==> x in gs && x.total == t
  {
    if gs != [] {
      WithTotalMembers(gs[1..], t);
      assert gs == [gs[0]] + gs[1..];
    }
  }

  lemma {:induction false} InsertMultiset(g: ServiceGroup, gs: seq<ServiceGroup>)
    ensures multiset(Insert(g, gs)) == multiset{g} + multiset(gs)
  {
    if gs != [] && g.total < gs[0].total {
      InsertMultiset(g, gs[1..]);
      assert gs == [gs[0]] + gs[1..];
    }
  }

  lemma DescendingCons(h: ServiceGroup, gs: seq<ServiceGroup>)
    requires Descending(gs)
    requires forall x :: x in gs ==> x.total <= h.total
    ensures Descending([h] + gs)
  {
    var r := [h] + gs;
    forall i, j | 0 <= i < j < |r|
      ensures r[i].total >= r[j].total
    {
      assert r[j] == gs[j - 1];
      if i > 0 {
        assert r[i] == gs[i - 1];
      }
    }
  }

  lemma {:induction false} InsertDescending(g: ServiceGroup, gs: seq<ServiceGroup>)
    requires Descending(gs)
    ensures Descending(Insert(g, gs))
  {
    if gs == [] {
    } else if g.total >= gs[0].total {
      DescendingHead(gs);
      DescendingCons(g, gs);
    } else {
      var head, tail := gs[0], gs[1..];
      var ins := Insert(g, tail);
      InsertDescending(g, tail);
      InsertMultiset(g, tail);
      DescendingHead(gs);
      forall x | x in ins
        ensures x.total <= head.total
      {
        assert x in multiset(ins);
        assert x == g || x in tail;
        assert x in tail ==> x in gs;
      }
      DescendingCons(head, ins);
    }
  }

  lemma {:induction false} InsertWithTotal(g: ServiceGroup, gs: seq<ServiceGroup>, t: Cents)
    ensures WithTotal(Insert(g, gs), t) == (if g.total == t then [g] else []) + WithTotal(gs, t)
  {
    var r := Insert(g, gs);
    if gs == [] || g.total >= gs[0].total {
      assert r[1..] == gs;
    } else {
      var head, ins := gs[0], Insert(g, gs[1..]);
      InsertWithTotal(g, gs[1..], t);
      assert r == [head] + ins && r[0] == head && r[1..] == ins;
      assert WithTotal(r, t) == (if head.total == t then [head] else []) + WithTotal(ins, t);
      assert WithTotal(gs, t) == (if head.total == t then [head] else []) + WithTotal(gs[1..], t);
      if head.total == t {
        assert g.total != t;
      }
    }
  }

  /**
   * Inserting into a non-increasing sequence keeps it non-increasing, adds
   * exactly `g`, and places `g` ahead of every group with the same total.
   */
  lemma InsertStable(g: ServiceGroup, gs: seq<ServiceGroup>)
    requires Descending(gs)
    ensures Descending(Insert(g, gs))
    ensures multiset(Insert(g, gs)) == multiset{g} + multiset(gs)
    ensures forall t :: WithTotal(Insert(g, gs), t) == (if g.total == t then [g] else []) + WithTotal(gs, t)
  {
    InsertDescending(g, gs);
    InsertMultiset(g, gs);
    forall t
      ensures WithTotal(Insert(g, gs), t) == (if g.total == t then [g] else []) + WithTotal(gs, t)
    {
      InsertWithTotal(g, gs, t);
    }
  }

  lemma WithTotalHead(gs: seq<ServiceGroup>)
    requires gs != []
    ensures WithTotal(gs, gs[0].total) != []
  {
  }

  /**
   * A stable non-increasing order is unique: two non-increasing sequences
   * that agree, for every total, on the groups with that total and their
   * order are the same sequence.
   */
  lemma {:induction false} StableSortUnique(a: seq<ServiceGroup>, b: seq<ServiceGroup>)
    requires Descending(a) && Descending(b)
    requires forall t :: WithTotal(a, t) == WithTotal(b, t)
    ensures a == b
  {
    if a == [] && b == [] {
    } else if a == [] {
      WithTotalHead(b);
      assert false;
    } else if b == [] {
      WithTotalHead(a);
      assert false;
    } else {
      var ta, tb := a[0].total, b[0].total;
      WithTotalMembers(a, tb);
      WithTotalMembers(b, ta);
      assert WithTotal(b, tb)[0] == b[0];
      assert WithTotal(a, ta)[0] == a[0];
      DescendingHead(a);
      DescendingHead(b);
      assert b[0] in WithTotal(a, tb);
      assert a[0] in WithTotal(b, ta);
      assert ta == tb;
      assert a[0] == b[0];
      forall t
        ensures WithTotal(a[1..], t) == WithTotal(b[1..], t)
      {
        var front := if ta == t then [a[0]] else [];
        assert WithTotal(a, t) == front + WithTotal(a[1..], t);
        assert WithTotal(b, t) == front + WithTotal(b[1..], t);
        assert WithTotal(a[1..], t) == WithTotal(a, t)[|front|..];
        assert WithTotal(b[1..], t) == WithTotal(b, t)[|front|..];
      }
      StableSortUnique(a[1..], b[1..]);
      assert a == [a[0]] + a[1..] && b == [b[0]] + b[1..];
    }
  }

  /** Putting a group in front adds its resources in front and its total to the sum. */
  lemma {:induction false} AllResourcesCons(g: ServiceGroup, hs: seq<ServiceGroup>)
    ensures AllResources([g] + hs) == g.resources + AllResources(hs)
    ensures TotalOf([g] + hs) == g.total + TotalOf(hs)
  {
    if hs != [] {
      var front, last := hs[..|hs| - 1], hs[|hs| - 1];
      var gh := [g] + hs;
      AllResourcesCons(g, front);
      assert gh[..|gh| - 1] == [g] + front && gh[|gh| - 1] == last;
    }
  }

  /** Inserting a group adds its resources and its total, wherever it lands. */
  lemma {:induction false} InsertContents(g: ServiceGroup, hs: seq<ServiceGroup>)
    ensures multiset(AllResources(Insert(g, hs))) == multiset(g.resources) + multiset(AllResources(hs))
    ensures TotalOf(Insert(g, hs)) == g.total + TotalOf(hs)
  {
    if hs == [] || g.total >= hs[0].total {
      AllResourcesCons(g, hs);
    } else {
      var head, tail := hs[0], hs[1..];
      InsertContents(g, tail);
      AllResourcesCons(head, Insert(g, tail));
      AllResourcesCons(head, tail);
      assert hs == [head] + tail;
    }
  }

  /** Sorting keeps every resource of every group, and the sum of the totals. */
  lemma {:induction false} SortByTotalContents(gs: seq<ServiceGroup>)
    ensures multiset(AllResources(SortByTotal(gs))) == multiset(AllResources(gs))
    ensures TotalOf(SortByTotal(gs)) == TotalOf(gs)
  {
    if gs != [] {
      SortByTotalContents(gs[1..]);
      InsertContents(gs[0], SortByTotal(gs[1..]));
      AllResourcesCons(gs[0], gs[1..]);
      assert gs == [gs[0]] + gs[1..];
    }
  }

  /** Any stable non-increasing sort of the groups returns what `SortByTotal` returns. */
  lemma SortByTotalIsTheStableSort(gs: seq<ServiceGroup>, sorted: seq<ServiceGroup>)
    requires StablySortedFrom(sorted, gs)
    ensures sorted == SortByTotal(gs)
  {
    SortByTotalStable(gs);
    StableSortUnique(sorted, SortByTotal(gs));
  }
}
