/**
  The CPU side of the skinned-mesh transform hider: which vertices each
  first-person exclusion takes over (by the bone weights of the mesh), the vertex
  buffer stride the compute shader is told, and how many thread groups cover an
  exclusion's vertices. The GPU buffers and the dispatch are outside the model.
*/
module TransformHider {

  import opened Common

  /** A transform, by identity. */
  type Bone = int

  /** A vertex's four bone-weight slots: bone indices into the renderer's bone list, and their weights. */
  datatype BoneWeight = BoneWeight(
    boneIndex0: int, boneIndex1: int, boneIndex2: int, boneIndex3: int,
    weight0: real, weight1: real, weight2: real, weight3: real)

  /** `float.Epsilon`, the smallest positive single-precision value, 2^-149. */
  const MinWeightThreshold: real := 1.0 / 713623846352979940529142984724747568191373312.0

  function SlotIndex(w: BoneWeight, k: nat): int
    requires k < 4
  {
    if k == 0 then w.boneIndex0 else if k == 1 then w.boneIndex1 else if k == 2 then w.boneIndex2 else w.boneIndex3
  }

  function SlotWeight(w: BoneWeight, k: nat): real
    requires k < 4
  {
    if k == 0 then w.weight0 else if k == 1 then w.weight1 else if k == 2 then w.weight2 else w.weight3
  }

  /** Every slot of every vertex names a bone of the renderer. */
  predicate IndicesInRange(boneWeights: seq<BoneWeight>, boneCount: nat)
  {
    forall i :: 0 <= i < |boneWeights| ==> SlotsInRange(boneWeights[i], boneCount)
  }

  /** Slot `k` counts: its bone has an exclusion and its weight is above the threshold. */
  predicate Qualifies(w: BoneWeight, k: nat, hasExclusion: seq<bool>)
    requires k < 4 && 0 <= SlotIndex(w, k) < |hasExclusion|
  {
    hasExclusion[SlotIndex(w, k)] && SlotWeight(w, k) > MinWeightThreshold
  }

  /** The four slots of `w` name bones among the first `n`. */
  predicate SlotsInRange(w: BoneWeight, n: nat)
  {
    0 <= w.boneIndex0 < n && 0 <= w.boneIndex1 < n && 0 <= w.boneIndex2 < n && 0 <= w.boneIndex3 < n
  }

  /** The lowest-numbered qualifying slot, if any: the slot whose bone takes the vertex. */
  function OwningSlot(w: BoneWeight, hasExclusion: seq<bool>): (r: Option<nat>)
    requires SlotsInRange(w, |hasExclusion|)
    ensures r.Some? ==> r.value < 4 && Qualifies(w, r.value, hasExclusion)
    ensures forall k :: 0 <= k < 4 && (r.None? || k < r.value) ==> !Qualifies(w, k, hasExclusion)
  {
    if Qualifies(w, 0, hasExclusion) then Some(0)
    else if Qualifies(w, 1, hasExclusion) then Some(1)
    else if Qualifies(w, 2, hasExclusion) then Some(2)
    else if Qualifies(w, 3, hasExclusion) then Some(3)
    else None
  }

  /** Weight of slot `k` when it qualifies, 0 otherwise. */
  function Counted(w: BoneWeight, k: nat, hasExclusion: seq<bool>): real
    requires k < 4 && SlotsInRange(w, |hasExclusion|)
  {
    if Qualifies(w, k, hasExclusion) then SlotWeight(w, k) else 0.0
  }

  /** The sum of the weights of all qualifying slots. */
  function QualifyingWeight(w: BoneWeight, hasExclusion: seq<bool>): (r: real)
    requires SlotsInRange(w, |hasExclusion|)
    ensures OwningSlot(w, hasExclusion).None? ==> r == 0.0
    ensures OwningSlot(w, hasExclusion).Some? ==> r > 0.0
  {
    Counted(w, 0, hasExclusion) + Counted(w, 1, hasExclusion) + Counted(w, 2, hasExclusion) + Counted(w, 3, hasExclusion)
  }

  /** An exclusion: the vertex indices it takes over and their weights, in two lists grown together. */
  class FPRExclusionWrapper {
    var affectedVertexIndices: seq<int>
    var affectedVertexWeights: seq<real>

    constructor ()
      ensures affectedVertexIndices == [] && affectedVertexWeights == []
    {
      affectedVertexIndices := [];
      affectedVertexWeights := [];
    }

    /** Both lists grow by one entry: the vertex and its weight. */
    method Add(vertex: int, weight: real)
      modifies this
      ensures affectedVertexIndices == old(affectedVertexIndices) + [vertex]
      ensures affectedVertexWeights == old(affectedVertexWeights) + [weight]
    {
      affectedVertexIndices := affectedVertexIndices + [vertex];
      affectedVertexWeights := affectedVertexWeights + [weight];
    }
  }

  /** Bone `b` is non-null and has an exclusion. */
  predicate Excluded(bones: seq<Option<Bone>>, exclusions: map<Bone, FPRExclusionWrapper>, b: int)
    requires 0 <= b < |bones|
  {
    bones[b].Some? && bones[b].value in exclusions
  }

  /** The flags the first loop of `FindExclusionVertList` computes, as a value. */
  function HasExclusion(bones: seq<Option<Bone>>, exclusions: map<Bone, FPRExclusionWrapper>): (r: seq<bool>)
    ensures |r| == |bones|
    ensures forall b :: 0 <= b < |bones| ==> r[b] == Excluded(bones, exclusions, b)
  {
    seq(|bones|, b requires 0 <= b < |bones| => Excluded(bones, exclusions, b))
  }

  /** The exclusion vertex `i` goes to, if any: that of the bone in its lowest qualifying slot. */
  function Target(boneWeights: seq<BoneWeight>, bones: seq<Option<Bone>>, exclusions: map<Bone, FPRExclusionWrapper>, i: nat): Option<FPRExclusionWrapper>
    requires IndicesInRange(boneWeights, |bones|) && i < |boneWeights|
  {
    var w := boneWeights[i];
    var has := HasExclusion(bones, exclusions);
    assert SlotsInRange(w, |has|);
    match OwningSlot(w, has)
    case None => None
    case Some(k) =>
      assert Excluded(bones, exclusions, SlotIndex(w, k));
      Some(exclusions[bones[SlotIndex(w, k)].value])
  }

  /** The weight recorded for vertex `i`: the sum of its qualifying slots' weights, clamped to [0, 1]. */
  function VertexWeight(boneWeights: seq<BoneWeight>, bones: seq<Option<Bone>>, exclusions: map<Bone, FPRExclusionWrapper>, i: nat): (r: real)
    requires IndicesInRange(boneWeights, |bones|) && i < |boneWeights|
    ensures 0.0 <= r <= 1.0
  {
    var has := HasExclusion(bones, exclusions);
    assert SlotsInRange(boneWeights[i], |has|);
    Clamp01(QualifyingWeight(boneWeights[i], has))
  }

  /** Every vertex's target exclusion, in vertex order. */
  function Targets(boneWeights: seq<BoneWeight>, bones: seq<Option<Bone>>, exclusions: map<Bone, FPRExclusionWrapper>): (r: seq<Option<FPRExclusionWrapper>>)
    requires IndicesInRange(boneWeights, |bones|)
    ensures |r| == |boneWeights|
  {
    seq(|boneWeights|, i requires 0 <= i < |boneWeights| => Target(boneWeights, bones, exclusions, i))
  }

  /** Every vertex's recorded weight, in vertex order. */
  function VertexWeights(boneWeights: seq<BoneWeight>, bones: seq<Option<Bone>>, exclusions: map<Bone, FPRExclusionWrapper>): (r: seq<real>)
    requires IndicesInRange(boneWeights, |bones|)
    ensures |r| == |boneWeights|
  {
    seq(|boneWeights|, i requires 0 <= i < |boneWeights| => VertexWeight(boneWeights, bones, exclusions, i))
  }

  /** The vertices among the first `n` whose target is `e`, in vertex order. */
  function IndicesFor<E(==)>(targets: seq<Option<E>>, e: E, n: nat): seq<int>
    requires n <= |targets|
  {
    if n == 0 then [] else IndicesFor(targets, e, n - 1) + (if targets[n - 1] == Some(e) then [n - 1] else [])
  }

  /** The weights of those vertices, in the same order. */
  function WeightsFor<E(==)>(targets: seq<Option<E>>, weights: seq<real>, e: E, n: nat): seq<real>
    requires n <= |targets| && n <= |weights|
  {
    if n == 0 then [] else WeightsFor(targets, weights, e, n - 1) + (if targets[n - 1] == Some(e) then [weights[n - 1]] else [])
  }

  /** The two lists of one exclusion grow in lockstep, each weight being that of the vertex listed beside it. */
  lemma {:induction false} ExclusionListsLockstep<E>(targets: seq<Option<E>>, weights: seq<real>, e: E, n: nat)
    requires n <= |targets| && n <= |weights|
    ensures var idx := IndicesFor(targets, e, n);
      var wts := WeightsFor(targets, weights, e, n);
      |idx| == |wts| && forall a :: 0 <= a < |idx| ==> 0 <= idx[a] < n && wts[a] == weights[idx[a]]
    decreases n
  {
    if n > 0 {
      ExclusionListsLockstep(targets, weights, e, n - 1);
    }
  }

  /**
    The indices one exclusion gets ascend, and a vertex is listed exactly when its
    target is this exclusion.
  */
  lemma {:induction false} ExclusionIndices<E>(targets: seq<Option<E>>, e: E, n: nat)
    requires n <= |targets|
    ensures var idx := IndicesFor(targets, e, n);
      && (forall a, b :: 0 <= a < b < |idx| ==> idx[a] < idx[b])
      && (forall a :: 0 <= a < |idx| ==> 0 <= idx[a] < n)
      && (forall i :: 0 <= i < n ==> (i in idx <==> targets[i] == Some(e)))
    decreases n
  {
    if n > 0 {
      ExclusionIndices(targets, e, n - 1);
      var prev := IndicesFor(targets, e, n - 1);
      assert n - 1 !in prev;
    }
  }

  /**
    A vertex goes to an exclusion exactly when some slot qualifies, and then to the
    exclusion of the bone in its lowest qualifying slot; a vertex's weight is
    positive exactly when it has a target.
  */
  lemma VertexOwnership(boneWeights: seq<BoneWeight>, bones: seq<Option<Bone>>, exclusions: map<Bone, FPRExclusionWrapper>, i: nat)
    requires IndicesInRange(boneWeights, |bones|) && i < |boneWeights|
    ensures var w := boneWeights[i];
      var has := HasExclusion(bones, exclusions);
      Target(boneWeights, bones, exclusions, i).Some? <==>
        exists k :: 0 <= k < 4 && has[SlotIndex(w, k)] && SlotWeight(w, k) > MinWeightThreshold
    ensures var w := boneWeights[i];
      var has := HasExclusion(bones, exclusions);
      forall k :: (0 <= k < 4 && has[SlotIndex(w, k)] && SlotWeight(w, k) > MinWeightThreshold &&
        (forall j :: 0 <= j < k ==> !(has[SlotIndex(w, j)] && SlotWeight(w, j) > MinWeightThreshold))) ==>
        bones[SlotIndex(w, k)].Some? && bones[SlotIndex(w, k)].value in exclusions &&
        Target(boneWeights, bones, exclusions, i) == Some(exclusions[bones[SlotIndex(w, k)].value])
    ensures Target(boneWeights, bones, exclusions, i).Some? <==> VertexWeight(boneWeights, bones, exclusions, i) > 0.0
  {
    var w := boneWeights[i];
    var has := HasExclusion(bones, exclusions);
    assert SlotsInRange(w, |has|);
    var owner := OwningSlot(w, has);
    if owner.Some? {
      assert has[SlotIndex(w, owner.value)] && SlotWeight(w, owner.value) > MinWeightThreshold;
    }
  }

  /** The bone taking a vertex over: the one in its lowest qualifying slot. */
  function OwningBone(w: BoneWeight, hasExclusion: seq<bool>, bones: seq<Option<Bone>>): Option<Bone>
    requires SlotsInRange(w, |hasExclusion|) && |bones| == |hasExclusion|
  {
    match OwningSlot(w, hasExclusion)
    case None => None
    case Some(k) => bones[SlotIndex(w, k)]
  }

  /** A vertex's target is the exclusion of its owning bone, and its weight the clamped qualifying sum. */
  lemma TargetOfOwningBone(boneWeights: seq<BoneWeight>, bones: seq<Option<Bone>>, exclusions: map<Bone, FPRExclusionWrapper>, i: nat)
    requires IndicesInRange(boneWeights, |bones|) && i < |boneWeights|
    ensures SlotsInRange(boneWeights[i], |bones|)
    ensures var b := OwningBone(boneWeights[i], HasExclusion(bones, exclusions), bones);
      Target(boneWeights, bones, exclusions, i) == if b.Some? && b.value in exclusions then Some(exclusions[b.value]) else None
    ensures VertexWeight(boneWeights, bones, exclusions, i) == Clamp01(QualifyingWeight(boneWeights[i], HasExclusion(bones, exclusions)))
  {
    assert SlotsInRange(boneWeights[i], |bones|);
  }

  /** The first loop of `FindExclusionVertList`: which bones have an exclusion. */
  method BonesWithExclusion(bones: seq<Option<Bone>>, exclusions: map<Bone, FPRExclusionWrapper>) returns (boneHasExclusion: array<bool>)
    ensures fresh(boneHasExclusion)
    ensures boneHasExclusion[..] == HasExclusion(bones, exclusions)
  {
    boneHasExclusion := new bool[|bones|](_ => false);
    for i := 0 to |bones|
      invariant forall k :: 0 <= k < i ==> boneHasExclusion[k] == Excluded(bones, exclusions, k)
      invariant forall k :: i <= k < |bones| ==> !boneHasExclusion[k]
    {
      var bone := bones[i];
      if bone.None? {
        continue;
      }
      if bone.value in exclusions {
        boneHasExclusion[i] := true;
      }
    }
  }

  /**
    One vertex of the second loop of `FindExclusionVertList`: the four slots are
    visited from 3 down to 0, each qualifying one adding its weight and taking over
    the bone, so the last one to do so is the lowest.
  */
  method WeighVertex(weight: BoneWeight, boneHasExclusion: seq<bool>, bones: seq<Option<Bone>>) returns (bone: Option<Bone>, boneWeight: real)
    requires SlotsInRange(weight, |boneHasExclusion|) && |bones| == |boneHasExclusion|
    ensures bone == OwningBone(weight, boneHasExclusion, bones)
    ensures boneWeight == QualifyingWeight(weight, boneHasExclusion)
  {
    ghost var has := boneHasExclusion;
    bone := None;
    boneWeight := 0.0;
    if boneHasExclusion[weight.boneIndex3] && weight.weight3 > MinWeightThreshold {
      boneWeight := boneWeight + weight.weight3;
      bone := bones[weight.boneIndex3];
    }
    if boneHasExclusion[weight.boneIndex2] && weight.weight2 > MinWeightThreshold {
      boneWeight := boneWeight + weight.weight2;
      bone := bones[weight.boneIndex2];
    }
    if boneHasExclusion[weight.boneIndex1] && weight.weight1 > MinWeightThreshold {
      boneWeight := boneWeight + weight.weight1;
      bone := bones[weight.boneIndex1];
    }
    if boneHasExclusion[weight.boneIndex0] && weight.weight0 > MinWeightThreshold {
      boneWeight := boneWeight + weight.weight0;
      bone := bones[weight.boneIndex0];
    }
    assert Counted(weight, 0, has) == (if boneHasExclusion[weight.boneIndex0] && weight.weight0 > MinWeightThreshold then weight.weight0 else 0.0);
  }

  /**
    The body of the second loop of `FindExclusionVertList` up to the append: the
    vertex is weighed, and its bone, when there is one with an exclusion, gives the
    exclusion to extend.
  */
  method VertexExclusion(boneWeights: seq<BoneWeight>, bones: seq<Option<Bone>>, exclusions: map<Bone, FPRExclusionWrapper>, boneHasExclusion: seq<bool>, i: nat)
    returns (exclusion: Option<FPRExclusionWrapper>, weight: real)
    requires IndicesInRange(boneWeights, |bones|) && i < |boneWeights|
    requires boneHasExclusion == HasExclusion(bones, exclusions)
    ensures exclusion == Target(boneWeights, bones, exclusions, i)
    ensures weight == VertexWeight(boneWeights, bones, exclusions, i)
    ensures exclusion.Some? ==> exclusion.value in exclusions.Values
  {
    TargetOfOwningBone(boneWeights, bones, exclusions, i);
    var bone, boneWeight := WeighVertex(boneWeights[i], boneHasExclusion, bones);
    weight := Clamp01(boneWeight);
    if bone.None? || bone.value !in exclusions {
      return None, weight;
    }
    exclusion := Some(exclusions[bone.value]);
  }

  /** Every wrapper holds its starting lists extended by the first `n` vertices' entries for it. */
  ghost predicate Recorded(wrappers: set<FPRExclusionWrapper>, start: map<FPRExclusionWrapper, (seq<int>, seq<real>)>, targets: seq<Option<FPRExclusionWrapper>>, weights: seq<real>, n: nat)
    requires n <= |targets| && n <= |weights|
    reads wrappers
  {
    && wrappers <= start.Keys
    && forall e {:trigger start[e]} :: e in wrappers ==>
      && e.affectedVertexIndices == start[e].0 + IndicesFor(targets, e, n)
      && e.affectedVertexWeights == start[e].1 + WeightsFor(targets, weights, e, n)
  }

  /** A vertex with no target leaves every wrapper's lists as they are. */
  lemma RecordedSkip(wrappers: set<FPRExclusionWrapper>, start: map<FPRExclusionWrapper, (seq<int>, seq<real>)>, targets: seq<Option<FPRExclusionWrapper>>, weights: seq<real>, i: nat)
    requires i < |targets| && i < |weights| && targets[i].None?
    requires Recorded(wrappers, start, targets, weights, i)
    ensures Recorded(wrappers, start, targets, weights, i + 1)
  {
    forall e | e in wrappers
      ensures IndicesFor(targets, e, i + 1) == IndicesFor(targets, e, i)
      ensures WeightsFor(targets, weights, e, i + 1) == WeightsFor(targets, weights, e, i)
    {
    }
  }

  /** The append of `FindExclusionVertList`: the vertex and its weight go to their target's lists. */
  method RecordVertex(exclusion: FPRExclusionWrapper, i: nat, weight: real,
                      ghost wrappers: set<FPRExclusionWrapper>, ghost start: map<FPRExclusionWrapper, (seq<int>, seq<real>)>,
                      ghost targets: seq<Option<FPRExclusionWrapper>>, ghost weights: seq<real>)
    requires i < |targets| && i < |weights| && targets[i] == Some(exclusion) && weights[i] == weight
    requires exclusion in wrappers && Recorded(wrappers, start, targets, weights, i)
    modifies exclusion
    ensures Recorded(wrappers, start, targets, weights, i + 1)
  {
    exclusion.Add(i, weight);
    forall e | e in wrappers
      ensures e.affectedVertexIndices == start[e].0 + IndicesFor(targets, e, i + 1)
      ensures e.affectedVertexWeights == start[e].1 + WeightsFor(targets, weights, e, i + 1)
    {
      if e == exclusion {
        assert IndicesFor(targets, e, i + 1) == IndicesFor(targets, e, i) + [i];
      } else {
        assert IndicesFor(targets, e, i + 1) == IndicesFor(targets, e, i);
      }
    }
  }

  /** The loop of `FindExclusionVertList` before vertex `i`: the vertices before it are recorded. */
  ghost predicate Visiting(boneWeights: seq<BoneWeight>, bones: seq<Option<Bone>>, exclusions: map<Bone, FPRExclusionWrapper>,
                           boneHasExclusion: seq<bool>, start: map<FPRExclusionWrapper, (seq<int>, seq<real>)>, i: nat)
    reads exclusions.Values
  {
    && IndicesInRange(boneWeights, |bones|) && i <= |boneWeights|
    && boneHasExclusion == HasExclusion(bones, exclusions)
    && Recorded(exclusions.Values, start, Targets(boneWeights, bones, exclusions), VertexWeights(boneWeights, bones, exclusions), i)
  }

  /** One vertex of `FindExclusionVertList`: it goes to its target's lists, if it has a target. */
  method VisitVertex(boneWeights: seq<BoneWeight>, bones: seq<Option<Bone>>, exclusions: map<Bone, FPRExclusionWrapper>,
                     boneHasExclusion: seq<bool>, ghost start: map<FPRExclusionWrapper, (seq<int>, seq<real>)>, i: nat)
    requires Visiting(boneWeights, bones, exclusions, boneHasExclusion, start, i) && i < |boneWeights|
    modifies exclusions.Values
    ensures Visiting(boneWeights, bones, exclusions, boneHasExclusion, start, i + 1)
  {
    ghost var targets := Targets(boneWeights, bones, exclusions);
    ghost var weights := VertexWeights(boneWeights, bones, exclusions);
    var exclusion, weight := VertexExclusion(boneWeights, bones, exclusions, boneHasExclusion, i);
    if exclusion.None? {
      RecordedSkip(exclusions.Values, start, targets, weights, i);
    } else {
      RecordVertex(exclusion.value, i, weight, exclusions.Values, start, targets, weights);
    }
  }

  /** The loop of `FindExclusionVertList`: every vertex, in order, goes to its target's lists. */
  method RecordExclusions(boneWeights: seq<BoneWeight>, bones: seq<Option<Bone>>, exclusions: map<Bone, FPRExclusionWrapper>,
                          boneHasExclusion: seq<bool>, ghost start: map<FPRExclusionWrapper, (seq<int>, seq<real>)>)
    requires Visiting(boneWeights, bones, exclusions, boneHasExclusion, start, 0)
    modifies exclusions.Values
    ensures Visiting(boneWeights, bones, exclusions, boneHasExclusion, start, |boneWeights|)
  {
    for i := 0 to |boneWeights|
      invariant Visiting(boneWeights, bones, exclusions, boneHasExclusion, start, i)
    {
      VisitVertex(boneWeights, bones, exclusions, boneHasExclusion, start, i);
    }
  }

  /**
    `FindExclusionVertList`: each exclusion's two lists are extended with the
    vertices whose target it is, in vertex order, and their recorded weights.
  */
  method FindExclusionVertList(boneWeights: seq<BoneWeight>, bones: seq<Option<Bone>>, exclusions: map<Bone, FPRExclusionWrapper>)
    requires IndicesInRange(boneWeights, |bones|)
    modifies exclusions.Values
    ensures forall e :: e in exclusions.Values ==>
      && e.affectedVertexIndices == old(e.affectedVertexIndices) + IndicesFor(Targets(boneWeights, bones, exclusions), e, |boneWeights|)
      && e.affectedVertexWeights == old(e.affectedVertexWeights) +
           WeightsFor(Targets(boneWeights, bones, exclusions), VertexWeights(boneWeights, bones, exclusions), e, |boneWeights|)
  {
    var boneHasExclusion := BonesWithExclusion(bones, exclusions);
    ghost var start: map<FPRExclusionWrapper, (seq<int>, seq<real>)> :=
      map e: FPRExclusionWrapper | e in exclusions.Values :: (e.affectedVertexIndices, e.affectedVertexWeights);
    assert forall e :: e in exclusions.Values ==> start[e] == (old(e.affectedVertexIndices), old(e.affectedVertexWeights));
    RecordExclusions(boneWeights, bones, exclusions, boneHasExclusion[..], start);
  }

  // ---------------------------------------------------------------- buffer layout and thread groups

  /** Floats per vertex in the raw vertex buffer: 3 for a position, 3 for a normal, 4 for a tangent. */
  function BufferLayout(hasPosition: bool, hasNormal: bool, hasTangent: bool): (r: int)
    ensures 0 <= r <= 10
    ensures r == 10 <==> hasPosition && hasNormal && hasTangent
    ensures r == 0 <==> !hasPosition && !hasNormal && !hasTangent
  {
    (if hasPosition then 3 else 0) + (if hasNormal then 3 else 0) + (if hasTangent then 4 else 0)
  }

  /**
    `Mathf.CeilToInt(vertexCount / 64f)`: the integer ceiling, enough groups of 64
    threads for every vertex and not one more.
  */
  function ThreadGroups(vertexCount: nat): (r: nat)
    ensures r == (vertexCount + 63) / 64
    ensures vertexCount == 0 <==> r == 0
    ensures 64 * (r - 1) < vertexCount <= 64 * r || r == 0
  {
    var q := vertexCount as real / 64.0;
    -((-q).Floor)
  }

  /** The hider's stride, accumulated as its constructor does. */
  class SkinnedTransformHider {
    const bufferLayout: int

    constructor (hasPosition: bool, hasNormal: bool, hasTangent: bool)
      ensures bufferLayout == BufferLayout(hasPosition, hasNormal, hasTangent)
    {
      var layout := 0;
      if hasPosition {
        layout := layout + 3;
      }
      if hasNormal {
        layout := layout + 3;
      }
      if hasTangent {
        layout := layout + 4;
      }
      bufferLayout := layout;
    }
  }

  /** A sub-task's vertex count and thread groups, taken from its exclusion's lists. */
  class SubTask {
    const vertexCount: nat
    const threadGroups: nat

    constructor (exclusion: FPRExclusionWrapper)
      ensures vertexCount == |exclusion.affectedVertexIndices|
      ensures threadGroups == ThreadGroups(vertexCount)
    {
      vertexCount := |exclusion.affectedVertexIndices|;
      threadGroups := ThreadGroups(|exclusion.affectedVertexIndices|);
    }
  }
}
