/** The two query resolvers of server.js. `AllProcessInstances` returns its
    array literal; `ProcessInstances` builds the same literal again and keeps,
    through `Array.prototype.filter`, the instances whose parent id is loosely
    equal to the filter's. */
module Resolvers {
  import opened Wrappers
  import opened Js
  import opened Schema
  import opened Fixture

  /** What a resolver throws. The only throw is the TypeError raised by
      reading a property of an absent (undefined or null) `filter`. */
  datatype ResolverError = CannotReadPropertyOfNullish(property: string)

  /** The comparison the filter stands for, written as an explicit three-way
      case split: a null or absent filter value matches a null parent, a
      string matches a parent with exactly that id, and nothing else matches. */
  predicate HasParent(p: ProcessInstance, v: NullableString)
  {
    match v
    case Str(s) => p.parentProcessInstanceId == Some(s)
    case _ => p.parentProcessInstanceId.None?
  }

  /** `a` is obtained from `b` by deleting elements: same order, no element
      repeated or added. */
  predicate IsSubsequence<T(==)>(a: seq<T>, b: seq<T>)
    decreases |b|
  {
    a == [] || (b != [] && ((a[0] == b[0] && IsSubsequence(a[1..], b[1..])) || IsSubsequence(a, b[1..])))
  }

  /** The ids of a list of instances, in order. */
  function Ids(ps: seq<ProcessInstance>): (ids: seq<string>)
    ensures |ids| == |ps|
    ensures forall i | 0 <= i < |ps| :: ids[i] == ps[i].id
  {
    if ps == [] then [] else [ps[0].id] + Ids(ps[1..])
  }

  /** The arrow function handed to `data.filter`: it reads
      `args["filter"].parentProcessInstanceId`, which throws when `filter`
      is absent, and compares the instance's parent id to it with `==`. */
  function FilterCallback(datum: ProcessInstance, filter: Option<ProcessInstanceFilter>): (r: Result<bool, ResolverError>)
    ensures r.Err? <==> filter.None?
    ensures filter.Some? ==> r == Ok(HasParent(datum, filter.value.parentProcessInstanceId))
  {
    match filter
    case None => Err(CannotReadPropertyOfNullish("parentProcessInstanceId"))
    case Some(f) => Ok(LooseEquals(FromField(datum.parentProcessInstanceId), f.parentProcessInstanceId))
  }

  /** `data.filter(FilterCallback)`: the callback runs on each element in
      order, the first throw propagates, and the elements it accepts are kept
      in their original order. On an empty array the callback never runs,
      so nothing throws. */
  function FilterArray(data: seq<ProcessInstance>, filter: Option<ProcessInstanceFilter>): (r: Result<seq<ProcessInstance>, ResolverError>)
    ensures r.Err? <==> filter.None? && data != []
    ensures r.Err? ==> r.error == CannotReadPropertyOfNullish("parentProcessInstanceId")
    ensures r.Ok? ==> |r.value| <= |data|
    ensures r.Ok? && filter.Some? ==>
      forall i | 0 <= i < |r.value| :: HasParent(r.value[i], filter.value.parentProcessInstanceId)
    ensures r.Ok? && filter.Some? ==>
      forall i | 0 <= i < |data| :: HasParent(data[i], filter.value.parentProcessInstanceId) ==> data[i] in r.value
  {
    if data == [] then Ok([])
    else
      match FilterCallback(data[0], filter)
      case Err(e) => Err(e)
      case Ok(keep) =>
        match FilterArray(data[1..], filter)
        case Err(e) => Err(e)
        case Ok(rest) => Ok(if keep then [data[0]] + rest else rest)
  }

  /** The one-element list an instance contributes to a filter by `v`. */
  function Keep(x: ProcessInstance, v: NullableString): seq<ProcessInstance>
  {
    if HasParent(x, v) then [x] else []
  }

  /** One step of the filter on a present filter object: the first element
      is kept exactly when its parent matches, ahead of what the rest yields. */
  lemma FilterArrayStep(data: seq<ProcessInstance>, f: ProcessInstanceFilter)
    requires data != []
    ensures FilterArray(data, Some(f)).Ok? && FilterArray(data[1..], Some(f)).Ok?
    ensures FilterArray(data, Some(f)).value ==
            Keep(data[0], f.parentProcessInstanceId) + FilterArray(data[1..], Some(f)).value
  {
  }

  /** The filter's result is a subsequence of its input: nothing is
      reordered, duplicated or invented. */
  lemma {:induction false} FilterArrayIsSubsequence(data: seq<ProcessInstance>, f: ProcessInstanceFilter)
    ensures FilterArray(data, Some(f)).Ok?
    ensures IsSubsequence(FilterArray(data, Some(f)).value, data)
  {
    if data != [] {
      FilterArrayIsSubsequence(data[1..], f);
      var rest := FilterArray(data[1..], Some(f)).value;
      if HasParent(data[0], f.parentProcessInstanceId) {
        assert ([data[0]] + rest)[1..] == rest;
      }
    }
  }

  /** Each instance occurs in the result exactly as often as in the input
      when its parent matches, and not at all otherwise. */
  lemma {:induction false} FilterArrayCounts(data: seq<ProcessInstance>, f: ProcessInstanceFilter, x: ProcessInstance)
    ensures FilterArray(data, Some(f)).Ok?
    ensures multiset(FilterArray(data, Some(f)).value)[x] ==
            if HasParent(x, f.parentProcessInstanceId) then multiset(data)[x] else 0
  {
    if data != [] {
      FilterArrayCounts(data[1..], f, x);
      assert data == [data[0]] + data[1..];
    }
  }

  /** The result depends on the filter only through its
      `parentProcessInstanceId`, and only up to `==`: two filters whose values
      are loosely equal (equal strings, or null and undefined in any mix)
      select the same instances, whatever their other fields say. */
  lemma {:induction false} FilterArrayDependsOnlyOnParent(data: seq<ProcessInstance>, f1: ProcessInstanceFilter, f2: ProcessInstanceFilter)
    requires LooseEquals(f1.parentProcessInstanceId, f2.parentProcessInstanceId)
    ensures FilterArray(data, Some(f1)) == FilterArray(data, Some(f2))
  {
    if data != [] {
      FilterArrayDependsOnlyOnParent(data[1..], f1, f2);
    }
  }

  /** Both resolvers build the same six-instance literal. */
  lemma ResolverFixturesIdentical()
    ensures ProcessInstancesData == AllProcessInstancesData
  {
  }

  /** `AllProcessInstances`: the literal, always the same six instances in
      the same order. */
  function AllProcessInstances(): (r: seq<ProcessInstance>)
    ensures Ids(r) == ["e1308c27-dab7-4680-b98b-c99e5eb0d70c", "d7b911f8-2eaa-4adb-b392-089e2a40ae03",
                       "3619de44-13be-4225-bd22-725a9a8ccb2a", "f0df27b1-85f9-442b-8720-aa2d6fdb0877",
                       "70a4ead8-0597-403c-b361-361100b5614b", "9020cf58-8f7b-4d91-ba6c-17513beed764"]
  {
    AllProcessInstancesData
  }

  /** `ProcessInstances(filter)`: throws when `filter` is absent; otherwise
      returns, in fixture order, exactly the instances of
      `AllProcessInstances()` whose parent matches the filter's value. */
  function ProcessInstances(filter: Option<ProcessInstanceFilter>): (r: Result<seq<ProcessInstance>, ResolverError>)
    ensures filter.None? ==> r == Err(CannotReadPropertyOfNullish("parentProcessInstanceId"))
    ensures filter.Some? ==> r.Ok?
    ensures filter.Some? ==> IsSubsequence(r.value, AllProcessInstances())
    ensures filter.Some? ==>
      forall i | 0 <= i < |r.value| :: HasParent(r.value[i], filter.value.parentProcessInstanceId)
    ensures filter.Some? ==>
      forall i | 0 <= i < |AllProcessInstances()| ::
        HasParent(AllProcessInstances()[i], filter.value.parentProcessInstanceId) ==> AllProcessInstances()[i] in r.value
  {
    ResolverFixturesIdentical();
    if filter.Some? then FilterArrayIsSubsequence(ProcessInstancesData, filter.value); FilterArray(ProcessInstancesData, filter)
    else FilterArray(ProcessInstancesData, filter)
  }

  /** `ProcessInstances` reads nothing of the filter but
      `parentProcessInstanceId`: `state`, `id`, `processId`, `limit` and
      `offset` have no effect, and a null value and an omitted one select
      the same instances. */
  lemma ProcessInstancesDependsOnlyOnParent(f1: ProcessInstanceFilter, f2: ProcessInstanceFilter)
    requires LooseEquals(f1.parentProcessInstanceId, f2.parentProcessInstanceId)
    ensures ProcessInstances(Some(f1)) == ProcessInstances(Some(f2))
  {
    FilterArrayDependsOnlyOnParent(ProcessInstancesData, f1, f2);
  }

  /** Every instance of the fixture is returned when the filter names its
      own parent (its parent id, or null for a root). */
  lemma EveryInstanceSelectedByItsParent(f: ProcessInstanceFilter, p: ProcessInstance)
    requires p in AllProcessInstances()
    requires f.parentProcessInstanceId == FromField(p.parentProcessInstanceId)
    ensures ProcessInstances(Some(f)).Ok? && p in ProcessInstances(Some(f)).value
  {
    assert HasParent(p, f.parentProcessInstanceId);
  }
}
