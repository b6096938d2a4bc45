/**
 * The infracost breakdown document that the report renderer reads, and the
 * per-resource values it derives from it.
 *
 * Every cost is a whole number of cents (a `nat`), so that sums, the annual
 * figure (monthly times 12) and two-decimal formatting are exact.  A field
 * that the JSON document may omit is an `Option`: `None` is an absent key.
 */
module CostData {

  datatype Option<+T> = None | Some(value: T)

  /** An amount of money in cents. */
  type Cents = nat

  /** One priced resource: `name` and `monthlyCost`, both optional. */
  datatype Resource = Resource(name: Option<string>, monthlyCost: Option<Cents>)

  /** A project's `breakdown` object, whose `resources` list may be absent. */
  datatype Breakdown = Breakdown(resources: Option<seq<Resource>>)

  /** A project: an optional `name` and an optional `breakdown`. */
  datatype Project = Project(name: Option<string>, breakdown: Option<Breakdown>)

  /** The whole breakdown document. */
  datatype CostDocument = CostDocument(
    totalMonthlyCost: Option<Cents>,
    totalHourlyCost: Option<Cents>,
    projects: Option<seq<Project>>)

  /** `get(key, default)` on an optional field. */
  function GetOr<T>(o: Option<T>, default: T): (r: T)
    ensures o.None? ==> r == default
    ensures o.Some? ==> r == o.value
  {
    match o
    case None => default
    case Some(v) => v
  }

  /** The resources of a project; an absent breakdown or list is empty. */
  function ResourcesOf(p: Project): (rs: seq<Resource>)
    ensures p.breakdown.None? ==> rs == []
    ensures p.breakdown.Some? && p.breakdown.value.resources.None? ==> rs == []
    ensures p.breakdown.Some? && p.breakdown.value.resources.Some? ==> rs == p.breakdown.value.resources.value
  {
    match p.breakdown
    case None => []
    case Some(b) => GetOr(b.resources, [])
  }

  /** A resource's monthly cost; an absent one counts as zero. */
  function CostOf(r: Resource): (c: Cents)
    ensures r.monthlyCost.None? ==> c == 0
    ensures r.monthlyCost.Some? ==> c == r.monthlyCost.value
  {
    GetOr(r.monthlyCost, 0)
  }

  /** The sum of the monthly costs of a list of resources. */
  function SumCosts(rs: seq<Resource>): Cents
  {
    if rs == [] then 0 else SumCosts(rs[..|rs| - 1]) + CostOf(rs[|rs| - 1])
  }

  /** Appending a resource adds its cost to the sum. */
  lemma SumCostsSnoc(rs: seq<Resource>, r: Resource)
    ensures SumCosts(rs + [r]) == SumCosts(rs) + CostOf(r)
  {
    assert (rs + [r])[..|rs|] == rs;
  }

  /**
   * The part of `s` before its first '.', or all of `s` when it has none:
   * the first element of Python's `s.split('.')`.
   */
  function BeforeFirstDot(s: string): string
  {
    if s == [] || s[0] == '.' then [] else [s[0]] + BeforeFirstDot(s[1..])
  }

  /** The service a resource belongs to; a resource without a name belongs to "". */
  function ServiceKey(r: Resource): string
  {
    BeforeFirstDot(GetOr(r.name, ""))
  }

  /**
   * The part before the first '.' is the longest dot-free prefix: it is a
   * prefix without a '.', and it is either the whole string or followed by
   * a '.'.
   */
  lemma {:induction false} BeforeFirstDotIsFirstPiece(s: string)
    ensures var k := BeforeFirstDot(s);
      && k <= s
      && '.' !in k
      && (|k| < |s| ==> s[|k|] == '.')
  {
    if s != [] && s[0] != '.' {
      BeforeFirstDotIsFirstPiece(s[1..]);
    }
  }

  /**
   * The service key is the whole name when the name holds no '.', the part
   * before the first '.' when it does, and "" when the resource has no name.
   */
  lemma ServiceKeyCharacterised(r: Resource)
    ensures r.name.None? ==> ServiceKey(r) == ""
    ensures r.name.Some? && '.' !in r.name.value ==> ServiceKey(r) == r.name.value
    ensures r.name.Some? && '.' in r.name.value ==>
              var k := ServiceKey(r);
              |k| < |r.name.value| && k == r.name.value[..|k|] && r.name.value[|k|] == '.' && '.' !in k
  {
    if r.name.Some? {
      BeforeFirstDotIsFirstPiece(r.name.value);
    }
  }

  /** Python's `s.split('.')` keeps a name's service as its first piece: `k + "." + rest` splits to `k`. */
  lemma {:induction false} ServiceKeyOfDottedName(k: string, rest: string, cost: Option<Cents>)
    requires '.' !in k
    ensures ServiceKey(Resource(Some(k + "." + rest), cost)) == k
  {
    if k != [] {
      assert (k + "." + rest)[1..] == k[1..] + "." + rest;
      ServiceKeyOfDottedName(k[1..], rest, cost);
    }
  }
}
