/**
 * The "group by service" step of the report: within one project, the
 * resources are walked in order and each is appended to the entry of its
 * service key in an insertion-ordered dictionary, whose running total grows
 * by the resource's monthly cost.
 *
 * `Services` is the reference definition of the finished table, stated
 * without a loop: one group per distinct key, in order of first occurrence,
 * holding exactly the resources with that key.  `GroupByService` is the
 * loop of the source, proved to build that table.
 */
module ServiceGroups {
  import opened CostData

  /** A dictionary value: the resources of one service and their running total. */
  datatype Entry = Entry(resources: seq<Resource>, total: Cents)

  /** A dictionary item `(key, entry)`, as the dictionary's `items()` yields it. */
  datatype ServiceGroup = ServiceGroup(key: string, resources: seq<Resource>, total: Cents)

  predicate Distinct(ks: seq<string>)
  {
    forall i, j :: 0 <= i < j < |ks| ==> ks[i] != ks[j]
  }

  /** The distinct service keys of `rs`, in order of first occurrence. */
  function ServiceOrder(rs: seq<Resource>): seq<string>
  {
    if rs == [] then []
    else
      var seen, k := ServiceOrder(rs[..|rs| - 1]), ServiceKey(rs[|rs| - 1]);
      if k in seen then seen else seen + [k]
  }

  /** The resources of `rs` whose service is `k`, in input order. */
  function InService(rs: seq<Resource>, k: string): seq<Resource>
  {
    if rs == [] then []
    else InService(rs[..|rs| - 1], k) + (if ServiceKey(rs[|rs| - 1]) == k then [rs[|rs| - 1]] else [])
  }

  /** The group of service `k`: its resources and the sum of their costs. */
  function GroupOf(rs: seq<Resource>, k: string): ServiceGroup
  {
    var members := InService(rs, k);
    ServiceGroup(k, members, SumCosts(members))
  }

  /** The groups of the keys `ks`, in the order of `ks`. */
  function GroupsFor(rs: seq<Resource>, ks: seq<string>): seq<ServiceGroup>
  {
    if ks == [] then [] else GroupsFor(rs, ks[..|ks| - 1]) + [GroupOf(rs, ks[|ks| - 1])]
  }

  /** The `i`-th group is the group of the `i`-th key. */
  lemma {:induction false} GroupsForAt(rs: seq<Resource>, ks: seq<string>)
    ensures |GroupsFor(rs, ks)| == |ks|
    ensures forall i :: 0 <= i < |ks| ==> GroupsFor(rs, ks)[i] == GroupOf(rs, ks[i])
  {
    if ks != [] {
      var front, gs := ks[..|ks| - 1], GroupsFor(rs, ks);
      GroupsForAt(rs, front);
      assert gs == GroupsFor(rs, front) + [GroupOf(rs, ks[|ks| - 1])];
      forall i | 0 <= i < |ks|
        ensures gs[i] == GroupOf(rs, ks[i])
      {
        if i < |front| {
          assert gs[i] == GroupsFor(rs, front)[i] && ks[i] == front[i];
        }
      }
    }
  }

  /** The finished services table of a project's resources, in dictionary order. */
  function Services(rs: seq<Resource>): seq<ServiceGroup>
  {
    GroupsFor(rs, ServiceOrder(rs))
  }

  /** Index of the first resource of service `k`, or `|rs|` when there is none. */
  function FirstIndex(rs: seq<Resource>, k: string): (j: nat)
    ensures j <= |rs|
    ensures j < |rs| ==> ServiceKey(rs[j]) == k
    ensures forall i :: 0 <= i < j ==> ServiceKey(rs[i]) != k
  {
    if rs == [] then 0 else if ServiceKey(rs[0]) == k then 0 else 1 + FirstIndex(rs[1..], k)
  }

  /** The resources of all groups, group after group. */
  function AllResources(gs: seq<ServiceGroup>): seq<Resource>
  {
    if gs == [] then [] else AllResources(gs[..|gs| - 1]) + gs[|gs| - 1].resources
  }

  /** The sum of the totals of all groups. */
  function TotalOf(gs: seq<ServiceGroup>): Cents
  {
    if gs == [] then 0 else TotalOf(gs[..|gs| - 1]) + gs[|gs| - 1].total
  }

  /** The items of an insertion-ordered dictionary, in insertion order. */
  function Items(order: seq<string>, entries: map<string, Entry>): seq<ServiceGroup>
    requires forall k :: k in order ==> k in entries
  {
    if order == [] then []
    else
      var k := order[|order| - 1];
      Items(order[..|order| - 1], entries) + [ServiceGroup(k, entries[k].resources, entries[k].total)]
  }

  /** The `i`-th item is the `i`-th key with its entry. */
  lemma {:induction false} ItemsAt(order: seq<string>, entries: map<string, Entry>)
    requires forall k :: k in order ==> k in entries
    ensures |Items(order, entries)| == |order|
    ensures forall i :: 0 <= i < |order| ==>
              Items(order, entries)[i] == ServiceGroup(order[i], entries[order[i]].resources, entries[order[i]].total)
  {
    if order != [] {
      ItemsAt(order[..|order| - 1], entries);
    }
  }

  /**
   * The grouping loop.  `order` and `entries` are the dictionary: its keys
   * in insertion order and its key-to-entry map.  Its items are the
   * reference table `Services(resources)`.
   */
  method GroupByService(resources: seq<Resource>) returns (order: seq<string>, entries: map<string, Entry>)
    ensures Distinct(order)
    ensures forall k :: k in entries <==> k in order
    ensures Items(order, entries) == Services(resources)
  {
    order, entries := [], map[];
    ghost var seen: seq<Resource> := [];
    var i := 0;
    while i < |resources|
      invariant 0 <= i <= |resources|
      invariant seen == resources[..i]
      invariant order == ServiceOrder(seen)
      invariant entries == Dictionary(seen)
    {
      var resource := resources[i];
      var service := ServiceKey(resource);
      DictionaryStep(seen, resource);
      // A new key starts as an empty entry at the end of the dictionary.
      var entry := Entry([], 0);
      if service in entries {
        entry := entries[service];
      } else {
        order := order + [service];
      }
      entries := entries[service := Entry(entry.resources + [resource], entry.total + CostOf(resource))];
      seen := seen + [resource];
      i := i + 1;
    }
    assert seen == resources;
    DictionaryItems(resources);
  }

  /** The key-to-entry map of the dictionary after the loop has read `rs`. */
  function Dictionary(rs: seq<Resource>): map<string, Entry>
  {
    if rs == [] then map[]
    else
      var m, r := Dictionary(rs[..|rs| - 1]), rs[|rs| - 1];
      var k := ServiceKey(r);
      var e := if k in m then m[k] else Entry([], 0);
      m[k := Entry(e.resources + [r], e.total + CostOf(r))]
  }

  lemma DictionarySnoc(rs: seq<Resource>, r: Resource)
    ensures var m, k := Dictionary(rs), ServiceKey(r);
      var e := if k in m then m[k] else Entry([], 0);
      Dictionary(rs + [r]) == m[k := Entry(e.resources + [r], e.total + CostOf(r))]
  {
    assert (rs + [r])[..|rs|] == rs;
  }

  /** One iteration of the loop: the dictionary after one more resource. */
  lemma DictionaryStep(rs: seq<Resource>, r: Resource)
    ensures var m, k := Dictionary(rs), ServiceKey(r);
      var e := if k in m then m[k] else Entry([], 0);
      && ServiceOrder(rs + [r]) == (if k in m then ServiceOrder(rs) else ServiceOrder(rs) + [k])
      && Dictionary(rs + [r]) == m[k := Entry(e.resources + [r], e.total + CostOf(r))]
  {
    DictionaryAt(rs, ServiceKey(r));
    ServiceOrderSnoc(rs, r);
    DictionarySnoc(rs, r);
  }

  /**
   * After reading `rs`, the dictionary holds a key exactly when the key has
   * been seen, and then holds that key's resources read so far and their total.
   */
  lemma {:induction false} DictionaryAt(rs: seq<Resource>, k: string)
    ensures k in Dictionary(rs) <==> k in ServiceOrder(rs)
    ensures k in Dictionary(rs) ==> Dictionary(rs)[k] == EntryOf(rs, k)
  {
    if rs != [] {
      var p, r := rs[..|rs| - 1], rs[|rs| - 1];
      assert rs == p + [r];
      DictionaryAt(p, k);
      DictionarySnoc(p, r);
      ServiceOrderSnoc(p, r);
      EntryOfSnoc(p, r, k);
      if ServiceKey(r) == k && k !in Dictionary(p) {
        SeenKey(p, k);
        assert InService(p, k) == [];
      }
    }
  }

  /** Once every resource is read, the dictionary's items are the reference table. */
  lemma DictionaryItems(rs: seq<Resource>)
    ensures Distinct(ServiceOrder(rs))
    ensures forall k :: k in Dictionary(rs) <==> k in ServiceOrder(rs)
    ensures Items(ServiceOrder(rs), Dictionary(rs)) == Services(rs)
  {
    var order, entries := ServiceOrder(rs), Dictionary(rs);
    DistinctOrder(rs);
    forall k
      ensures k in entries <==> k in order
      ensures k in entries ==> entries[k] == EntryOf(rs, k)
    {
      DictionaryAt(rs, k);
    }
    ItemsOfEntries(order, entries, rs);
  }

  lemma ServiceOrderSnoc(p: seq<Resource>, r: Resource)
    ensures ServiceOrder(p + [r]) ==
      if ServiceKey(r) in ServiceOrder(p) then ServiceOrder(p) else ServiceOrder(p) + [ServiceKey(r)]
  {
    assert (p + [r])[..|p|] == p;
  }

  /** The dictionary value that the loop keeps for service `k` after reading `rs`. */
  function EntryOf(rs: seq<Resource>, k: string): Entry
  {
    Entry(InService(rs, k), SumCosts(InService(rs, k)))
  }

  lemma EntryOfSnoc(p: seq<Resource>, r: Resource, k: string)
    ensures EntryOf(p + [r], k) ==
      if ServiceKey(r) == k then Entry(InService(p, k) + [r], SumCosts(InService(p, k)) + CostOf(r)) else EntryOf(p, k)
  {
    InServiceSnoc(p, r, k);
    SumCostsSnoc(InService(p, k), r);
    if ServiceKey(r) != k {
      assert InService(p + [r], k) == InService(p, k) + [] == InService(p, k);
    }
  }

  lemma ItemsOfEntries(order: seq<string>, entries: map<string, Entry>, rs: seq<Resource>)
    requires forall k :: k in order ==> k in entries && entries[k] == EntryOf(rs, k)
    ensures Items(order, entries) == GroupsFor(rs, order)
  {
    var xs, ys := Items(order, entries), GroupsFor(rs, order);
    ItemsAt(order, entries);
    GroupsForAt(rs, order);
    forall i | 0 <= i < |order|
      ensures xs[i] == ys[i]
    {
      assert entries[order[i]] == EntryOf(rs, order[i]);
    }
  }

  /** Distinct lists are distinct after dropping their last element. */
  lemma DistinctPrefix(ks: seq<string>)
    requires Distinct(ks) && ks != []
    ensures Distinct(ks[..|ks| - 1]) && ks[|ks| - 1] !in ks[..|ks| - 1]
  {
  }

  lemma FirstIndexSnoc(p: seq<Resource>, r: Resource, k: string)
    ensures FirstIndex(p + [r], k) ==
      if FirstIndex(p, k) < |p| then FirstIndex(p, k) else if ServiceKey(r) == k then |p| else |p| + 1
  {
    var s := p + [r];
    var f, g := FirstIndex(s, k), FirstIndex(p, k);
    assert forall i :: 0 <= i < |p| ==> s[i] == p[i];
    assert s[|p|] == r;
    if g < |p| {
      assert s[g] == p[g];
    }
  }

  /** The dictionary's keys are each listed once. */
  lemma {:induction false} DistinctOrder(rs: seq<Resource>)
    ensures Distinct(ServiceOrder(rs))
  {
    if rs != [] {
      var p, r := rs[..|rs| - 1], rs[|rs| - 1];
      assert rs == p + [r];
      DistinctOrder(p);
      ServiceOrderSnoc(p, r);
      if ServiceKey(r) !in ServiceOrder(p) {
        DistinctSnoc(ServiceOrder(p), ServiceKey(r));
      }
    }
  }

  lemma DistinctSnoc(ks: seq<string>, k: string)
    requires Distinct(ks) && k !in ks
    ensures Distinct(ks + [k])
  {
  }

  /**
   * A key is in the dictionary exactly when some resource has it: then its
   * first resource lies within `rs` and its group is not empty.
   */
  lemma {:induction false} SeenKey(rs: seq<Resource>, k: string)
    ensures k in ServiceOrder(rs) <==> FirstIndex(rs, k) < |rs|
    ensures k in ServiceOrder(rs) <==> InService(rs, k) != []
  {
    if rs != [] {
      var p, r := rs[..|rs| - 1], rs[|rs| - 1];
      assert rs == p + [r];
      SeenKey(p, k);
      ServiceOrderSnoc(p, r);
      FirstIndexSnoc(p, r, k);
      InServiceSnoc(p, r, k);
    }
  }

  /** `SeenKey` for every key at once, with `DistinctOrder`. */
  lemma SeenKeys(rs: seq<Resource>)
    ensures Distinct(ServiceOrder(rs))
    ensures forall k :: k in ServiceOrder(rs) <==> FirstIndex(rs, k) < |rs|
    ensures forall k :: k in ServiceOrder(rs) <==> InService(rs, k) != []
  {
    DistinctOrder(rs);
    forall k
      ensures k in ServiceOrder(rs) <==> FirstIndex(rs, k) < |rs|
      ensures k in ServiceOrder(rs) <==> InService(rs, k) != []
    {
      SeenKey(rs, k);
    }
  }

  lemma InServiceSnoc(p: seq<Resource>, r: Resource, k: string)
    ensures InService(p + [r], k) == InService(p, k) + (if ServiceKey(r) == k then [r] else [])
  {
    assert (p + [r])[..|p|] == p;
  }

  lemma AllResourcesSnoc(gs: seq<ServiceGroup>, g: ServiceGroup)
    ensures AllResources(gs + [g]) == AllResources(gs) + g.resources
  {
    assert (gs + [g])[..|gs|] == gs;
  }

  lemma TotalOfSnoc(gs: seq<ServiceGroup>, g: ServiceGroup)
    ensures TotalOf(gs + [g]) == TotalOf(gs) + g.total
  {
    assert (gs + [g])[..|gs|] == gs;
  }

  lemma GroupsForSnocKey(rs: seq<Resource>, ks: seq<string>, k: string)
    ensures GroupsFor(rs, ks + [k]) == GroupsFor(rs, ks) + [GroupOf(rs, k)]
  {
    assert (ks + [k])[..|ks|] == ks;
  }

  /**
   * Appending a resource to the input adds it to the resources of the
   * groups of distinct keys `ks` only if `ks` holds its key.
   */
  lemma {:induction false} GroupsForSnocResources(p: seq<Resource>, r: Resource, ks: seq<string>)
    requires Distinct(ks)
    ensures multiset(AllResources(GroupsFor(p + [r], ks)))
         == multiset(AllResources(GroupsFor(p, ks))) + (if ServiceKey(r) in ks then multiset{r} else multiset{})
  {
    if ks != [] {
      var front, k := ks[..|ks| - 1], ks[|ks| - 1];
      assert ks == front + [k];
      DistinctPrefix(ks);
      GroupsForSnocResources(p, r, front);
      AllResourcesSnocKey(p + [r], front, k);
      AllResourcesSnocKey(p, front, k);
      InServiceSnocMultiset(p, r, k);
      KeyPlacement(ks, ServiceKey(r));
      AddCounts(multiset(AllResources(GroupsFor(p + [r], front))), multiset(AllResources(GroupsFor(p, front))),
                multiset(InService(p + [r], k)), multiset(InService(p, k)), r, ServiceKey(r) in front, ServiceKey(r) == k);
    }
  }

  /** In distinct keys, a key is among the leading ones or the last one, never both. */
  lemma KeyPlacement(ks: seq<string>, key: string)
    requires Distinct(ks) && ks != []
    ensures key in ks <==> key in ks[..|ks| - 1] || key == ks[|ks| - 1]
    ensures !(key in ks[..|ks| - 1] && key == ks[|ks| - 1])
  {
    assert ks == ks[..|ks| - 1] + [ks[|ks| - 1]];
  }

  /** Two parts that each gain `r` under exclusive conditions gain it together under either. */
  lemma AddCounts(grown: multiset<Resource>, before: multiset<Resource>, added: multiset<Resource>, had: multiset<Resource>,
                  r: Resource, inFront: bool, atLast: bool)
    requires !(inFront && atLast)
    requires grown == before + if inFront then multiset{r} else multiset{}
    requires added == had + if atLast then multiset{r} else multiset{}
    ensures grown + added == before + had + if inFront || atLast then multiset{r} else multiset{}
  {
  }

  lemma AllResourcesSnocKey(rs: seq<Resource>, ks: seq<string>, k: string)
    ensures AllResources(GroupsFor(rs, ks + [k])) == AllResources(GroupsFor(rs, ks)) + InService(rs, k)
  {
    GroupsForSnocKey(rs, ks, k);
    AllResourcesSnoc(GroupsFor(rs, ks), GroupOf(rs, k));
  }

  lemma InServiceSnocMultiset(p: seq<Resource>, r: Resource, k: string)
    ensures multiset(InService(p + [r], k)) == multiset(InService(p, k)) + if ServiceKey(r) == k then multiset{r} else multiset{}
  {
    InServiceSnoc(p, r, k);
    if ServiceKey(r) != k {
      assert InService(p + [r], k) == InService(p, k) + [] == InService(p, k);
    }
  }

  /**
   * Appending a resource to the input adds its cost to the totals of the
   * groups of distinct keys `ks` only if `ks` holds its key.
   */
  lemma {:induction false} GroupsForSnocTotal(p: seq<Resource>, r: Resource, ks: seq<string>)
    requires Distinct(ks)
    ensures TotalOf(GroupsFor(p + [r], ks)) == TotalOf(GroupsFor(p, ks)) + (if ServiceKey(r) in ks then CostOf(r) else 0)
  {
    if ks != [] {
      var front, k, key := ks[..|ks| - 1], ks[|ks| - 1], ServiceKey(r);
      var before, after := GroupOf(p, k), GroupOf(p + [r], k);
      assert ks == front + [k];
      assert TotalOf(GroupsFor(p + [r], ks)) == TotalOf(GroupsFor(p + [r], front)) + after.total by {
        GroupsForSnocKey(p + [r], front, k);
        TotalOfSnoc(GroupsFor(p + [r], front), after);
      }
      assert TotalOf(GroupsFor(p, ks)) == TotalOf(GroupsFor(p, front)) + before.total by {
        GroupsForSnocKey(p, front, k);
        TotalOfSnoc(GroupsFor(p, front), before);
      }
      assert Distinct(front) && k !in front by {
        DistinctPrefix(ks);
      }
      assert TotalOf(GroupsFor(p + [r], front)) == TotalOf(GroupsFor(p, front)) + (if key in front then CostOf(r) else 0) by {
        GroupsForSnocTotal(p, r, front);
      }
      InServiceSnoc(p, r, k);
      if key == k {
        assert key !in front && key in ks;
        SumCostsSnoc(InService(p, k), r);
      } else {
        assert key in ks <==> key in front;
        assert InService(p + [r], k) == InService(p, k) + [] == InService(p, k);
      }
    }
  }

  /** The table after one more resource: an old key's group grows, a new key gets a group at the end. */
  lemma ServicesSnoc(p: seq<Resource>, r: Resource)
    ensures var k, seen := ServiceKey(r), ServiceOrder(p);
      Services(p + [r]) ==
        if k in seen then GroupsFor(p + [r], seen) else GroupsFor(p + [r], seen) + [GroupOf(p + [r], k)]
  {
    var k, seen := ServiceKey(r), ServiceOrder(p);
    ServiceOrderSnoc(p, r);
    if k !in seen {
      GroupsForSnocKey(p + [r], seen, k);
    }
  }

  /** The group of a key seen for the first time holds just that resource. */
  lemma GroupOfNewKey(p: seq<Resource>, r: Resource)
    requires ServiceKey(r) !in ServiceOrder(p)
    ensures GroupOf(p + [r], ServiceKey(r)) == ServiceGroup(ServiceKey(r), [r], CostOf(r))
  {
    var k := ServiceKey(r);
    SeenKey(p, k);
    InServiceSnoc(p, r, k);
    assert InService(p + [r], k) == [r];
    SumCostsSnoc([], r);
  }

  /**
   * Every resource lands in exactly one group: the groups' resources are,
   * as a multiset, the input resources.
   */
  lemma {:induction false} ServicesPartition(rs: seq<Resource>)
    ensures multiset(AllResources(Services(rs))) == multiset(rs)
  {
    if rs != [] {
      var p, r := rs[..|rs| - 1], rs[|rs| - 1];
      assert rs == p + [r];
      ServicesPartition(p);
      ServicesResourcesSnoc(p, r);
    }
  }

  lemma ServicesResourcesSnoc(p: seq<Resource>, r: Resource)
    ensures multiset(AllResources(Services(p + [r]))) == multiset(AllResources(Services(p))) + multiset{r}
  {
    var k, seen := ServiceKey(r), ServiceOrder(p);
    DistinctOrder(p);
    GroupsForSnocResources(p, r, seen);
    ServicesSnoc(p, r);
    if k !in seen {
      GroupOfNewKey(p, r);
      AllResourcesSnoc(GroupsFor(p + [r], seen), GroupOf(p + [r], k));
    }
  }

  /** The group totals add up to the total monthly cost of the input. */
  lemma {:induction false} ServicesTotal(rs: seq<Resource>)
    ensures TotalOf(Services(rs)) == SumCosts(rs)
  {
    if rs != [] {
      var p, r := rs[..|rs| - 1], rs[|rs| - 1];
      assert rs == p + [r];
      ServicesTotal(p);
      ServicesTotalSnoc(p, r);
      SumCostsSnoc(p, r);
    }
  }

  lemma ServicesTotalSnoc(p: seq<Resource>, r: Resource)
    ensures TotalOf(Services(p + [r])) == TotalOf(Services(p)) + CostOf(r)
  {
    var k, seen := ServiceKey(r), ServiceOrder(p);
    DistinctOrder(p);
    GroupsForSnocTotal(p, r, seen);
    ServicesSnoc(p, r);
    if k !in seen {
      GroupOfNewKey(p, r);
      TotalOfSnoc(GroupsFor(p + [r], seen), GroupOf(p + [r], k));
    }
  }

  /**
   * The shape of the table: the keys are distinct and are exactly the keys
   * of the resources; each group is non-empty, holds only resources of its
   * own key, and its total is the sum of its resources' costs.
   */
  lemma ServicesWellFormed(rs: seq<Resource>)
    ensures var gs := Services(rs);
      && (forall i, j :: 0 <= i < j < |gs| ==> gs[i].key != gs[j].key)
      && (forall j :: 0 <= j < |rs| ==> exists i :: 0 <= i < |gs| && gs[i].key == ServiceKey(rs[j]))
      && (forall i :: 0 <= i < |gs| ==> gs[i].resources != [] && gs[i].total == SumCosts(gs[i].resources))
      && (forall i, m :: 0 <= i < |gs| && 0 <= m < |gs[i].resources| ==> ServiceKey(gs[i].resources[m]) == gs[i].key)
  {
    var gs := Services(rs);
    var ord := ServiceOrder(rs);
    SeenKeys(rs);
    GroupsForAt(rs, ord);
    forall j | 0 <= j < |rs|
      ensures exists i :: 0 <= i < |gs| && gs[i].key == ServiceKey(rs[j])
    {
      var k := ServiceKey(rs[j]);
      assert FirstIndex(rs, k) <= j;
      var i :| 0 <= i < |ord| && ord[i] == k;
      assert gs[i].key == k;
    }
    forall i | 0 <= i < |gs|
      ensures forall m :: 0 <= m < |gs[i].resources| ==> ServiceKey(gs[i].resources[m]) == gs[i].key
    {
      InServiceKeys(rs, ord[i]);
    }
  }

  lemma {:induction false} InServiceKeys(rs: seq<Resource>, k: string)
    ensures forall m :: 0 <= m < |InService(rs, k)| ==> ServiceKey(InService(rs, k)[m]) == k
  {
    if rs != [] {
      InServiceKeys(rs[..|rs| - 1], k);
    }
  }

  /**
   * The table's keys are in order of first occurrence: of two keys, the
   * one listed first is the one whose first resource comes first.
   */
  lemma {:induction false} ServicesFirstSeenOrder(rs: seq<Resource>)
    ensures var gs := Services(rs);
      forall a, b :: 0 <= a < b < |gs| ==> FirstIndex(rs, gs[a].key) < FirstIndex(rs, gs[b].key) < |rs|
  {
    var gs, ord := Services(rs), ServiceOrder(rs);
    FirstSeenOrder(rs);
    GroupsForAt(rs, ord);
    forall a, b | 0 <= a < b < |gs|
      ensures FirstIndex(rs, gs[a].key) < FirstIndex(rs, gs[b].key) < |rs|
    {
      assert gs[a].key == ord[a] && gs[b].key == ord[b];
    }
  }

  /** The keys `ks` are listed in the order in which `rs` first uses them. */
  predicate InFirstSeenOrder(rs: seq<Resource>, ks: seq<string>)
  {
    forall a, b :: 0 <= a < b < |ks| ==> FirstIndex(rs, ks[a]) < FirstIndex(rs, ks[b]) < |rs|
  }

  lemma {:induction false} FirstSeenOrder(rs: seq<Resource>)
    ensures InFirstSeenOrder(rs, ServiceOrder(rs))
  {
    if rs != [] {
      var p, r := rs[..|rs| - 1], rs[|rs| - 1];
      assert rs == p + [r];
      FirstSeenOrder(p);
      ServiceOrderSnoc(p, r);
      var ord, seen := ServiceOrder(rs), ServiceOrder(p);
      forall a, b | 0 <= a < b < |ord|
        ensures FirstIndex(rs, ord[a]) < FirstIndex(rs, ord[b]) < |rs|
      {
        FirstIndexSnoc(p, r, ord[a]);
        FirstIndexSnoc(p, r, ord[b]);
        assert ord[a] == seen[a];
        SeenKey(p, seen[a]);
        if b < |seen| {
          assert ord[b] == seen[b];
          assert InFirstSeenOrder(p, seen);
          assert FirstIndex(p, seen[a]) < FirstIndex(p, seen[b]) < |p|;
        } else {
          assert ord[b] == ServiceKey(r) && ServiceKey(r) !in seen;
          SeenKey(p, ServiceKey(r));
          assert FirstIndex(p, ServiceKey(r)) == |p|;
        }
      }
    }
  }
}
