/** What the two resolvers return on the concrete fixture: the selections a
    dashboard makes (the children of each root, the roots themselves, an
    unknown parent), and the facts the fixture itself exhibits. */
module FixtureProperties {
  import opened Wrappers
  import opened Js
  import opened Schema
  import opened Fixture
  import opened Resolvers

  const CompletedTravelId := "3619de44-13be-4225-bd22-725a9a8ccb2a"
  const ActiveTravelId := "f0df27b1-85f9-442b-8720-aa2d6fdb0877"
  /** The id of the ACTIVE instance's "Confirm travel" user task. */
  const OpenNodeId := "ebee96bb-ec8c-4e12-bb04-015ada9684f6"

  /** A filter over six instances, spelled out element by element. */
  lemma FilterSixUnfolded(d: seq<ProcessInstance>, f: ProcessInstanceFilter)
    requires |d| == 6
    ensures FilterArray(d, Some(f)).Ok?
    ensures var v := f.parentProcessInstanceId;
      FilterArray(d, Some(f)).value ==
      Keep(d[0], v) + (Keep(d[1], v) + (Keep(d[2], v) + (Keep(d[3], v) + (Keep(d[4], v) + Keep(d[5], v)))))
  {
    var v := f.parentProcessInstanceId;
    var t1, t2, t3, t4, t5 := d[1..], d[2..], d[3..], d[4..], d[5..];
    assert t1[1..] == t2 && t2[1..] == t3 && t3[1..] == t4 && t4[1..] == t5 && t5[1..] == [];
    var r0, r1, r2 := FilterArray(d, Some(f)).value, FilterArray(t1, Some(f)).value, FilterArray(t2, Some(f)).value;
    var r3, r4, r5 := FilterArray(t3, Some(f)).value, FilterArray(t4, Some(f)).value, FilterArray(t5, Some(f)).value;
    FilterArrayStep(d, f);
    FilterArrayStep(t1, f);
    FilterArrayStep(t2, f);
    FilterArrayStep(t3, f);
    FilterArrayStep(t4, f);
    FilterArrayStep(t5, f);
    assert r5 == Keep(d[5], v);
    assert r4 == Keep(d[4], v) + r5;
    assert r3 == Keep(d[3], v) + r4;
    assert r2 == Keep(d[2], v) + r3;
    assert r1 == Keep(d[1], v) + r2;
    assert r0 == Keep(d[0], v) + r1;
  }

  /** What a filter selects from any six instances whose parents follow the
      fixture's pattern: two children of one root, the two roots, two
      children of the other root. */
  lemma SelectionsOfSix(d: seq<ProcessInstance>, f: ProcessInstanceFilter, c: string, a: string)
    requires |d| == 6 && c != a
    requires d[0].parentProcessInstanceId == Some(c) && d[1].parentProcessInstanceId == Some(c)
    requires d[2].parentProcessInstanceId == None && d[3].parentProcessInstanceId == None
    requires d[4].parentProcessInstanceId == Some(a) && d[5].parentProcessInstanceId == Some(a)
    ensures FilterArray(d, Some(f)).Ok?
    ensures var v := f.parentProcessInstanceId; var r := FilterArray(d, Some(f)).value;
      && (v == Str(c) ==> r == [d[0], d[1]])
      && (v.IsNullish() ==> r == [d[2], d[3]])
      && (v == Str(a) ==> r == [d[4], d[5]])
      && (v.Str? && v.s != c && v.s != a ==> r == [])
  {
    FilterSixUnfolded(d, f);
  }

  /** The parent of each fixture instance, in order. */
  lemma FixtureParents()
    ensures |AllProcessInstances()| == 6
    ensures AllProcessInstances()[0].parentProcessInstanceId == Some(CompletedTravelId)
    ensures AllProcessInstances()[1].parentProcessInstanceId == Some(CompletedTravelId)
    ensures AllProcessInstances()[2].parentProcessInstanceId == None
    ensures AllProcessInstances()[3].parentProcessInstanceId == None
    ensures AllProcessInstances()[4].parentProcessInstanceId == Some(ActiveTravelId)
    ensures AllProcessInstances()[5].parentProcessInstanceId == Some(ActiveTravelId)
  {
  }

  /** Filtering on the completed root's id returns its two children, the
      hotel and flight bookings, in fixture order. */
  lemma ChildrenOfCompletedTravel(f: ProcessInstanceFilter)
    requires f.parentProcessInstanceId == Str(CompletedTravelId)
    ensures ProcessInstances(Some(f)) == Ok([AllProcessInstances()[0], AllProcessInstances()[1]])
    ensures Ids(ProcessInstances(Some(f)).value) ==
            ["e1308c27-dab7-4680-b98b-c99e5eb0d70c", "d7b911f8-2eaa-4adb-b392-089e2a40ae03"]
  {
    Select(f);
  }

  /** Filtering on the active root's id returns its two children. */
  lemma ChildrenOfActiveTravel(f: ProcessInstanceFilter)
    requires f.parentProcessInstanceId == Str(ActiveTravelId)
    ensures ProcessInstances(Some(f)) == Ok([AllProcessInstances()[4], AllProcessInstances()[5]])
    ensures Ids(ProcessInstances(Some(f)).value) ==
            ["70a4ead8-0597-403c-b361-361100b5614b", "9020cf58-8f7b-4d91-ba6c-17513beed764"]
  {
    Select(f);
  }

  /** A null or omitted `parentProcessInstanceId` returns the two roots. */
  lemma NullishParentSelectsRoots(f: ProcessInstanceFilter)
    requires f.parentProcessInstanceId.IsNullish()
    ensures ProcessInstances(Some(f)) == Ok([AllProcessInstances()[2], AllProcessInstances()[3]])
    ensures Ids(ProcessInstances(Some(f)).value) == [CompletedTravelId, ActiveTravelId]
  {
    Select(f);
  }

  /** Any id that is no instance's parent selects nothing. */
  lemma UnknownParentSelectsNothing(f: ProcessInstanceFilter, s: string)
    requires f.parentProcessInstanceId == Str(s)
    requires s != CompletedTravelId && s != ActiveTravelId
    ensures ProcessInstances(Some(f)) == Ok([])
  {
    Select(f);
  }

  /** `ProcessInstances` on the fixture, by the parent pattern above. */
  lemma Select(f: ProcessInstanceFilter)
    ensures |AllProcessInstances()| == 6
    ensures ProcessInstances(Some(f)) == FilterArray(AllProcessInstances(), Some(f))
    ensures var v := f.parentProcessInstanceId; var r := ProcessInstances(Some(f)).value;
      var d := AllProcessInstances();
      && ProcessInstances(Some(f)).Ok?
      && (v == Str(CompletedTravelId) ==> r == [d[0], d[1]])
      && (v.IsNullish() ==> r == [d[2], d[3]])
      && (v == Str(ActiveTravelId) ==> r == [d[4], d[5]])
      && (v.Str? && v.s != CompletedTravelId && v.s != ActiveTravelId ==> r == [])
  {
    ResolverFixturesIdentical();
    FixtureParents();
    assert CompletedTravelId[0] != ActiveTravelId[0];
    SelectionsOfSix(AllProcessInstances(), f, CompletedTravelId, ActiveTravelId);
  }

  /** The position in the fixture of the instance whose id starts with `c`
      (the six ids have distinct first characters). */
  function PositionOfInitial(c: char): int
  {
    match c
    case 'e' => 0
    case 'd' => 1
    case '3' => 2
    case 'f' => 3
    case '7' => 4
    case '9' => 5
    case _ => -1
  }

  /** The first character of the `i`-th fixture id gives back `i`. */
  lemma IdInitialAt(i: nat)
    requires i < |AllProcessInstancesData|
    ensures |AllProcessInstancesData[i].id| > 0 && PositionOfInitial(AllProcessInstancesData[i].id[0]) == i
  {
    var d := AllProcessInstancesData;
    if i == 0 { assert d[0].id[0] == 'e'; }
    else if i == 1 { assert d[1].id[0] == 'd'; }
    else if i == 2 { assert d[2].id[0] == '3'; }
    else if i == 3 { assert d[3].id[0] == 'f'; }
    else if i == 4 { assert d[4].id[0] == '7'; }
    else { assert d[5].id[0] == '9'; }
  }

  /** No two fixture instances share an id. */
  lemma FixtureIdsDistinct()
    ensures forall i, j | 0 <= i < j < |AllProcessInstances()| ::
      AllProcessInstances()[i].id != AllProcessInstances()[j].id
  {
    var d := AllProcessInstances();
    forall i, j | 0 <= i < j < |d| ensures d[i].id != d[j].id {
      IdInitialAt(i);
      IdInitialAt(j);
    }
  }

  /** Every parent link in the fixture points at a root instance of the
      fixture itself: one of the two travels instances. */
  lemma FixtureParentsAreRoots()
    ensures forall p | p in AllProcessInstances() && p.parentProcessInstanceId.Some? ::
      p.parentProcessInstanceId.value in {CompletedTravelId, ActiveTravelId}
    ensures forall q | q in AllProcessInstances() && q.id in {CompletedTravelId, ActiveTravelId} ::
      q.parentProcessInstanceId.None?
  {
    var d := AllProcessInstances();
    FixtureParents();
    forall p | p in d && p.parentProcessInstanceId.Some?
      ensures p.parentProcessInstanceId.value in {CompletedTravelId, ActiveTravelId}
    {
      var i :| 0 <= i < |d| && d[i] == p;
    }
    forall q | q in d && q.id in {CompletedTravelId, ActiveTravelId}
      ensures q.parentProcessInstanceId.None?
    {
      var i :| 0 <= i < |d| && d[i] == q;
      IdInitialAt(i);
    }
  }

  /** The state and node exits of the `i`-th fixture instance. */
  lemma StateAndExitsAt(i: nat)
    requires i < |AllProcessInstancesData|
    ensures AllProcessInstancesData[i].state in {COMPLETED, ACTIVE}
    ensures AllProcessInstancesData[i].state == COMPLETED <==> AllNodesExited(AllProcessInstancesData[i])
  {
    var d := AllProcessInstancesData;
    if i == 0 { assert AllNodesExited(d[0]); }
    else if i == 1 { assert AllNodesExited(d[1]); }
    else if i == 2 { assert AllNodesExited(d[2]); }
    else if i == 3 { assert d[3].nodes[1].exit.None?; }
    else if i == 4 { assert AllNodesExited(d[4]); }
    else { assert AllNodesExited(d[5]); }
  }

  /** The only node of the `i`-th fixture instance that may lack an exit
      time is the "Confirm travel" task `OpenNodeId`. */
  lemma OpenNodesAt(i: nat)
    requires i < |AllProcessInstancesData|
    ensures forall k | 0 <= k < |AllProcessInstancesData[i].nodes| ::
      var n := AllProcessInstancesData[i].nodes[k];
      (n.exit.None? <==> n.id == OpenNodeId) && (n.exit.None? ==> n.name == "Confirm travel")
  {
    var d := AllProcessInstancesData;
    if i == 0 { assert d[i] == d[0]; }
    else if i == 1 { assert d[i] == d[1]; }
    else if i == 2 { assert d[i] == d[2]; }
    else if i == 3 { assert d[i] == d[3]; }
    else if i == 4 { assert d[i] == d[4]; }
    else { assert d[i] == d[5]; }
  }

  /** Across the fixture, a node lacks an exit time exactly when it is the
      ACTIVE instance's "Confirm travel" task. */
  lemma FixtureOpenNode()
    ensures forall p, k | p in AllProcessInstances() && 0 <= k < |p.nodes| ::
      (p.nodes[k].exit.None? <==> p.nodes[k].id == OpenNodeId) &&
      (p.nodes[k].exit.None? ==> p.nodes[k].name == "Confirm travel")
  {
    var d := AllProcessInstances();
    forall p, k | p in d && 0 <= k < |p.nodes|
      ensures (p.nodes[k].exit.None? <==> p.nodes[k].id == OpenNodeId) &&
              (p.nodes[k].exit.None? ==> p.nodes[k].name == "Confirm travel")
    {
      var i :| 0 <= i < |d| && d[i] == p;
      OpenNodesAt(i);
    }
  }

  /** In the fixture an instance is COMPLETED exactly when every one of its
      nodes has an exit time; the only other state is ACTIVE, and the one
      node still open is its "Confirm travel" user task. */
  lemma FixtureCompletedIffAllNodesExited()
    ensures forall p | p in AllProcessInstances() ::
      p.state in {COMPLETED, ACTIVE} && (p.state == COMPLETED <==> AllNodesExited(p))
    ensures forall p, k | p in AllProcessInstances() && 0 <= k < |p.nodes| ::
      (p.nodes[k].exit.None? <==> p.nodes[k].id == OpenNodeId) &&
      (p.nodes[k].exit.None? ==> p.nodes[k].name == "Confirm travel")
  {
    var d := AllProcessInstances();
    forall p | p in d ensures p.state in {COMPLETED, ACTIVE} && (p.state == COMPLETED <==> AllNodesExited(p)) {
      var i :| 0 <= i < |d| && d[i] == p;
      StateAndExitsAt(i);
    }
    FixtureOpenNode();
  }

  /** The nodes of the `i`-th fixture instance. */
  lemma NodesLackNonNullFieldsAt(i: nat)
    requires i < |AllProcessInstancesData|
    ensures forall n | n in AllProcessInstancesData[i].nodes :: LacksTypeAndNodeId(n)
  {
    var d := AllProcessInstancesData;
    if i == 0 { assert d[i] == d[0]; }
    else if i == 1 { assert d[i] == d[1]; }
    else if i == 2 { assert d[i] == d[2]; }
    else if i == 3 { assert d[i] == d[3]; }
    else if i == 4 { assert d[i] == d[4]; }
    else { assert d[i] == d[5]; }
  }

  /** The fixture's nodes omit `type` and `nodeId`, which the schema
      declares non-null, so a query selecting either field on `nodes` cannot
      be answered from this data. */
  lemma FixtureNodesLackNonNullFields()
    ensures forall p, n | p in AllProcessInstances() && n in p.nodes :: LacksTypeAndNodeId(n)
  {
    var d := AllProcessInstances();
    forall p, n | p in d && n in p.nodes ensures LacksTypeAndNodeId(n) {
      var i :| 0 <= i < |d| && d[i] == p;
      NodesLackNonNullFieldsAt(i);
    }
  }
}
