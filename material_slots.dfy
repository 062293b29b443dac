/**
 * `AssignMaterialsForOpenGEX`: one material slot per material index used by a
 * mesh level, appended in ascending material-index order.
 */
module MaterialSlots {
  import opened OpenGex
  import opened StaticMeshes

  /** The values a sequence holds. */
  function Values(r: seq<nat>): set<nat> {
    set x | x in r
  }

  /** How many elements of `s` are smaller than `m`: the position of `m` once `s` is sorted. */
  function Rank(s: set<nat>, m: nat): nat {
    |Below(s, m)|
  }

  /** The elements of `s` smaller than `m`. */
  function Below(s: set<nat>, m: nat): set<nat> {
    set x | x in s && x < m
  }

  /** Every non-empty set of naturals has a least element. */
  lemma {:induction false} HasMinimum(s: set<nat>)
    requires s != {}
    ensures exists m :: IsLeast(s, m)
  {
    var y :| y in s;
    if s == {y} {
      assert IsLeast(s, y);
    } else {
      HasMinimum(s - {y});
      var m :| IsLeast(s - {y}, m);
      var least := if y < m then y else m;
      forall x | x in s ensures least <= x {
        if x != y { assert x in s - {y}; }
      }
      assert IsLeast(s, least);
    }
  }

  /** `m` is the least element of `s`. */
  predicate IsLeast(s: set<nat>, m: nat) {
    m in s && forall x | x in s :: m <= x
  }

  /** `MaterialIndices.Array()` followed by `Sort()`: the elements of `s` in ascending order. */
  method SortedIndices(s: set<nat>) returns (r: seq<nat>)
    ensures Ascending(r)
    ensures forall x :: x in r <==> x in s
  {
    r := [];
    var rest := s;
    while rest != {}
      invariant rest <= s
      invariant forall x :: x in s <==> x in r || x in rest
      invariant Ascending(r)
      invariant forall i, x | 0 <= i < |r| && x in rest :: r[i] < x
      decreases rest
    {
      HasMinimum(rest);
      var m :| IsLeast(rest, m);
      r := r + [m];
      rest := rest - {m};
    }
  }

  /** A strictly ascending sequence holds exactly `k` distinct values before position `k`. */
  lemma {:induction false} PrefixCardinality(r: seq<nat>, k: nat)
    requires Ascending(r) && k <= |r|
    ensures |Values(r[..k])| == k
  {
    if k > 0 {
      PrefixCardinality(r, k - 1);
      var init, last := r[..k - 1], r[k - 1];
      assert r[..k] == init + [last];
      forall x | x in Values(init) ensures x < last {
        var i :| 0 <= i < |init| && init[i] == x;
        assert r[i] == x;
      }
      ValuesAppend(init, last);
    }
  }

  /** Appending a value adds it to the values held. */
  lemma ValuesAppend(r: seq<nat>, x: nat)
    ensures Values(r + [x]) == Values(r) + {x}
  {
    assert forall y | y in r + [x] :: y in r || y == x;
  }

  /** In the sorted order of `s`, the element at position `k` has rank `k`. */
  lemma RankInSorted(s: set<nat>, r: seq<nat>, k: nat)
    requires Ascending(r) && (forall x :: x in r <==> x in s) && k < |r|
    ensures Rank(s, r[k]) == k
  {
    PrefixCardinality(r, k);
    var below := Below(s, r[k]);
    forall x | x in below ensures x in r[..k] {
      var i :| 0 <= i < |r| && r[i] == x;
      assert i < k;
    }
    forall x | x in Values(r[..k]) ensures x in below {
      var i :| 0 <= i < k && r[i] == x;
      assert r[i] in r;
    }
    assert below == Values(r[..k]);
    assert Rank(s, r[k]) == |below|;
  }

  /** The static material the importer emplaces for material index `m` of the geometry node. */
  function SlotMaterial(node: seq<MaterialStructure>, materials: map<string, nat>, m: nat): StaticMaterial
    requires m < |node| && node[m].structureName in materials
  {
    StaticMaterial(materials[node[m].structureName], node[m].materialName, node[m].materialName)
  }

  /** Every index in `sorted` names a material structure whose engine material is known. */
  ghost predicate Resolvable(node: seq<MaterialStructure>, materials: map<string, nat>, sorted: seq<nat>) {
    forall j | 0 <= j < |sorted| :: sorted[j] < |node| && node[sorted[j]].structureName in materials
  }

  /** The static materials the loop emplaces, one per element of `sorted`, in that order. */
  function SlotMaterials(node: seq<MaterialStructure>, materials: map<string, nat>, sorted: seq<nat>): (r: seq<StaticMaterial>)
    requires Resolvable(node, materials, sorted)
    ensures |r| == |sorted|
  {
    if sorted == [] then []
    else SlotMaterials(node, materials, sorted[..|sorted| - 1]) + [SlotMaterial(node, materials, sorted[|sorted| - 1])]
  }

  /** The `j`-th emplaced material is the one of the `j`-th index. */
  lemma {:induction false} SlotMaterialsAt(node: seq<MaterialStructure>, materials: map<string, nat>, sorted: seq<nat>)
    requires Resolvable(node, materials, sorted)
    ensures forall j | 0 <= j < |sorted| :: SlotMaterials(node, materials, sorted)[j] == SlotMaterial(node, materials, sorted[j])
  {
    if sorted != [] {
      var init := sorted[..|sorted| - 1];
      SlotMaterialsAt(node, materials, init);
    }
  }

  /** The slot map the loop builds when it gives the `j`-th element of `sorted` slot `first + j`. */
  function SlotMap(sorted: seq<nat>, first: nat): map<nat, nat> {
    if sorted == [] then map[]
    else SlotMap(sorted[..|sorted| - 1], first)[sorted[|sorted| - 1] := first + |sorted| - 1]
  }

  /** In a strictly ascending sequence no later element overwrites an earlier one's slot. */
  lemma {:induction false} SlotMapPositions(sorted: seq<nat>, first: nat)
    requires Ascending(sorted)
    ensures SlotMap(sorted, first).Keys == Values(sorted)
    ensures forall j | 0 <= j < |sorted| :: SlotMap(sorted, first)[sorted[j]] == first + j
  {
    if sorted != [] {
      var init := sorted[..|sorted| - 1];
      assert Ascending(init);
      SlotMapPositions(init, first);
      assert sorted == init + [sorted[|sorted| - 1]];
      assert Values(sorted) == Values(init) + {sorted[|sorted| - 1]};
      forall j | 0 <= j < |init| ensures SlotMap(sorted, first)[sorted[j]] == first + j {
        assert sorted[j] == init[j] != sorted[|sorted| - 1];
      }
    }
  }

  /** `sections` after recording, for level `lod`, that sections `first .. first + count - 1` each use their own slot. */
  function WithSections(sections: map<SectionKey, nat>, lod: int, first: nat, count: nat): map<SectionKey, nat> {
    if count == 0 then sections
    else WithSections(sections, lod, first, count - 1)[SectionKey(lod, first + count - 1) := first + count - 1]
  }

  /** The recorded sections are exactly the new slots of `lod`; every other entry is kept. */
  lemma {:induction false} WithSectionsEntries(sections: map<SectionKey, nat>, lod: int, first: nat, count: nat)
    ensures var r := WithSections(sections, lod, first, count);
      && (forall slot | first <= slot < first + count :: SectionKey(lod, slot) in r && r[SectionKey(lod, slot)] == slot)
      && (forall key | key in r :: key in sections || (key.lod == lod && first <= key.section < first + count))
      && (forall key | key in sections && (key.lod != lod || key.section < first || first + count <= key.section) ::
            key in r && r[key] == sections[key])
  {
    if count > 0 {
      WithSectionsEntries(sections, lod, first, count - 1);
    }
  }

  /**
   * `AssignMaterialsForOpenGEX`: appends one static material per used index, in ascending
   * index order, maps each index to its slot and records one section per slot for `lod`.
   */
  method AssignMaterials(mesh: StaticMesh, node: seq<MaterialStructure>, materials: map<string, nat>, lod: int, used: set<nat>)
    returns (slotOf: map<nat, nat>)
    requires forall m | m in used :: m < |node| && node[m].structureName in materials
    modifies mesh`staticMaterials, mesh`sectionInfo
    ensures slotOf.Keys == used
    ensures |mesh.staticMaterials| == old(|mesh.staticMaterials|) + |used|
    ensures mesh.staticMaterials[..old(|mesh.staticMaterials|)] == old(mesh.staticMaterials)
    ensures forall m | m in used :: old(|mesh.staticMaterials|) <= slotOf[m] < |mesh.staticMaterials|
    ensures forall m | m in used :: slotOf[m] == old(|mesh.staticMaterials|) + Rank(used, m)
    ensures forall m | m in used :: mesh.staticMaterials[slotOf[m]] == SlotMaterial(node, materials, m)
    ensures mesh.sectionInfo == WithSections(old(mesh.sectionInfo), lod, old(|mesh.staticMaterials|), |used|)
  {
    var sorted := SortedIndices(used);
    assert forall j | 0 <= j < |sorted| :: sorted[j] in sorted;
    slotOf := AppendSlots(mesh, node, materials, lod, sorted);
    SortedSlotsAreRanks(node, materials, used, sorted, old(|mesh.staticMaterials|));
  }

  /** Walking the sorted indices gives every used index the slot of its rank, holding its own material. */
  lemma SortedSlotsAreRanks(node: seq<MaterialStructure>, materials: map<string, nat>, used: set<nat>, sorted: seq<nat>, first: nat)
    requires Ascending(sorted) && (forall x :: x in sorted <==> x in used) && Resolvable(node, materials, sorted)
    ensures |sorted| == |used|
    ensures SlotMap(sorted, first).Keys == used
    ensures forall m | m in used ::
      && Rank(used, m) < |sorted|
      && SlotMap(sorted, first)[m] == first + Rank(used, m)
      && SlotMaterials(node, materials, sorted)[Rank(used, m)] == SlotMaterial(node, materials, m)
  {
    SlotMapPositions(sorted, first);
    SlotMaterialsAt(node, materials, sorted);
    PrefixCardinality(sorted, |sorted|);
    assert sorted[..|sorted|] == sorted;
    assert Values(sorted) == used;
    forall m | m in used
      ensures Rank(used, m) < |sorted|
      ensures SlotMap(sorted, first)[m] == first + Rank(used, m)
      ensures SlotMaterials(node, materials, sorted)[Rank(used, m)] == SlotMaterial(node, materials, m)
    {
      var j :| 0 <= j < |sorted| && sorted[j] == m;
      RankInSorted(used, sorted, j);
    }
  }

  /** The loop of `AssignMaterialsForOpenGEX`: the material at position `j` of `sorted` gets the `j`-th new slot. */
  method AppendSlots(mesh: StaticMesh, node: seq<MaterialStructure>, materials: map<string, nat>, lod: int, sorted: seq<nat>)
    returns (slotOf: map<nat, nat>)
    requires Resolvable(node, materials, sorted)
    modifies mesh`staticMaterials, mesh`sectionInfo
    ensures mesh.staticMaterials == old(mesh.staticMaterials) + SlotMaterials(node, materials, sorted)
    ensures slotOf == SlotMap(sorted, old(|mesh.staticMaterials|))
    ensures mesh.sectionInfo == WithSections(old(mesh.sectionInfo), lod, old(|mesh.staticMaterials|), |sorted|)
  {
    ghost var first := |mesh.staticMaterials|;
    slotOf := map[];
    for k := 0 to |sorted|
      invariant mesh.staticMaterials == old(mesh.staticMaterials) + SlotMaterials(node, materials, sorted[..k])
      invariant slotOf == SlotMap(sorted[..k], first)
      invariant mesh.sectionInfo == WithSections(old(mesh.sectionInfo), lod, first, k)
    {
      var index := sorted[k];
      var name := node[index].materialName;
      var slot := |mesh.staticMaterials|;
      assert sorted[..k + 1][..k] == sorted[..k];
      mesh.staticMaterials := mesh.staticMaterials + [StaticMaterial(materials[node[index].structureName], name, name)];
      slotOf := slotOf[index := slot];
      mesh.sectionInfo := mesh.sectionInfo[SectionKey(lod, slot) := slot];
    }
    assert sorted[..|sorted|] == sorted;
  }
}
