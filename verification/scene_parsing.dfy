/**
 * Loading a model file and summarising the imported scene.
 *
 * The importer's scene is abstracted to a sequence of meshes, each with a
 * vertex count, a (triangulated) face count and a list of bones, each bone with
 * its list of vertex weights. Scanning the scene reports, per mesh, its vertex,
 * index and bone counts, then walks its bones and their weights; at the end it
 * reports the scene totals. What is reported is modelled as a log of visits,
 * in the order the scan makes them.
 */
module SceneParsing {

  datatype Option<+T> = None | Some(value: T)

  /** One entry of a bone's weight list: the mesh-local vertex it influences and how strongly. */
  datatype VertexWeight = VertexWeight(vertexId: nat, weight: real)

  datatype Bone = Bone(name: string, weights: seq<VertexWeight>)

  datatype Mesh = Mesh(name: string, numVertices: nat, numFaces: nat, bones: seq<Bone>)

  datatype Scene = Scene(meshes: seq<Mesh>)

  predicate HasBones(m: Mesh)
  {
    |m.bones| > 0
  }

  /** One reported step of the scan. */
  datatype Visit =
    | MeshVisit(mesh: nat, name: string, vertices: nat, indices: nat, bones: nat)
    | BoneVisit(bone: nat, name: string, numWeights: nat)
    | WeightVisit(slot: nat, vertexId: nat, weight: real)

  datatype Totals = Totals(vertices: nat, indices: nat, bones: nat)

  /** What scanning a scene produces: the totals and the log of visits. */
  datatype Report = Report(totals: Totals, log: seq<Visit>)

  // ---------------------------------------------------------------------------
  // Reference definitions
  // ---------------------------------------------------------------------------

  function TotalVertices(ms: seq<Mesh>): nat
  {
    if ms == [] then 0 else TotalVertices(ms[..|ms| - 1]) + ms[|ms| - 1].numVertices
  }

  function TotalFaces(ms: seq<Mesh>): nat
  {
    if ms == [] then 0 else TotalFaces(ms[..|ms| - 1]) + ms[|ms| - 1].numFaces
  }

  function TotalBones(ms: seq<Mesh>): nat
  {
    if ms == [] then 0 else TotalBones(ms[..|ms| - 1]) + |ms[|ms| - 1].bones|
  }

  /** Scene totals: vertices, three indices per triangle, bones, each summed over all meshes. */
  function SceneTotals(ms: seq<Mesh>): Totals
  {
    Totals(TotalVertices(ms), 3 * TotalFaces(ms), TotalBones(ms))
  }

  /** The weights of one bone, visited in list order. */
  function WeightsLog(ws: seq<VertexWeight>): seq<Visit>
  {
    if ws == [] then []
    else WeightsLog(ws[..|ws| - 1]) + [WeightVisit(|ws| - 1, ws[|ws| - 1].vertexId, ws[|ws| - 1].weight)]
  }

  /** Bone number i of a mesh: its own entry, then its weights. */
  function BoneLog(i: nat, b: Bone): seq<Visit>
  {
    [BoneVisit(i, b.name, |b.weights|)] + WeightsLog(b.weights)
  }

  /** The bones of one mesh, visited in list order. */
  function BonesLog(bs: seq<Bone>): seq<Visit>
  {
    if bs == [] then [] else BonesLog(bs[..|bs| - 1]) + BoneLog(|bs| - 1, bs[|bs| - 1])
  }

  /** Mesh number i: its counts, then its bones if it has any. */
  function MeshLog(i: nat, m: Mesh): seq<Visit>
  {
    [MeshVisit(i, m.name, m.numVertices, 3 * m.numFaces, |m.bones|)] + (if HasBones(m) then BonesLog(m.bones) else [])
  }

  /** The meshes of a scene, visited in list order. */
  function ScanLog(ms: seq<Mesh>): seq<Visit>
  {
    if ms == [] then [] else ScanLog(ms[..|ms| - 1]) + MeshLog(|ms| - 1, ms[|ms| - 1])
  }

  /** What a successful scan of the scene reports. */
  function SceneReport(s: Scene): Report
  {
    Report(SceneTotals(s.meshes), ScanLog(s.meshes))
  }

  // ---------------------------------------------------------------------------
  // The scan
  // ---------------------------------------------------------------------------

  /** Visits one bone and then each of its weights, in order. */
  method ParseSingleBone(boneIndex: nat, bone: Bone) returns (log: seq<Visit>)
    ensures log == BoneLog(boneIndex, bone)
  {
    log := [BoneVisit(boneIndex, bone.name, |bone.weights|)];
    var i := 0;
    while i < |bone.weights|
      invariant 0 <= i <= |bone.weights|
      invariant log == [BoneVisit(boneIndex, bone.name, |bone.weights|)] + WeightsLog(bone.weights[..i])
    {
      var vw := bone.weights[i];
      assert bone.weights[..i + 1][..i] == bone.weights[..i];
      log := log + [WeightVisit(i, vw.vertexId, vw.weight)];
      i := i + 1;
    }
    assert bone.weights[..i] == bone.weights;
  }

  /** Visits every bone of a mesh, in order. */
  method ParseMeshBones(mesh: Mesh) returns (log: seq<Visit>)
    ensures log == BonesLog(mesh.bones)
  {
    log := [];
    var i := 0;
    while i < |mesh.bones|
      invariant 0 <= i <= |mesh.bones|
      invariant log == BonesLog(mesh.bones[..i])
    {
      var boneLog := ParseSingleBone(i, mesh.bones[i]);
      assert mesh.bones[..i + 1][..i] == mesh.bones[..i];
      log := log + boneLog;
      i := i + 1;
    }
    assert mesh.bones[..i] == mesh.bones;
  }

  /** Visits every mesh in order, adding up vertex, index and bone counts. */
  method ParseMeshes(scene: Scene) returns (report: Report)
    ensures report.totals.vertices == TotalVertices(scene.meshes)
    ensures report.totals.indices == 3 * TotalFaces(scene.meshes)
    ensures report.totals.bones == TotalBones(scene.meshes)
    ensures report.log == ScanLog(scene.meshes)
  {
    var meshes := scene.meshes;
    var totalVertices, totalIndices, totalBones := 0, 0, 0;
    var log := [];
    var i := 0;
    while i < |meshes|
      invariant 0 <= i <= |meshes|
      invariant totalVertices == TotalVertices(meshes[..i])
      invariant totalIndices == 3 * TotalFaces(meshes[..i])
      invariant totalBones == TotalBones(meshes[..i])
      invariant log == ScanLog(meshes[..i])
    {
      var mesh := meshes[i];
      var numVertices := mesh.numVertices;
      var numIndices := mesh.numFaces * 3;
      var numBones := |mesh.bones|;
      ScanOneMore(meshes, i);
      log := log + [MeshVisit(i, mesh.name, numVertices, numIndices, numBones)];
      totalVertices := totalVertices + numVertices;
      totalIndices := totalIndices + numIndices;
      totalBones := totalBones + numBones;
      if HasBones(mesh) {
        var bonesLog := ParseMeshBones(mesh);
        log := log + bonesLog;
      }
      i := i + 1;
    }
    assert meshes[..i] == meshes;
    report := Report(Totals(totalVertices, totalIndices, totalBones), log);
  }

  /** Extending the scanned prefix by mesh i adds that mesh's counts and its log. */
  lemma ScanOneMore(ms: seq<Mesh>, i: nat)
    requires i < |ms|
    ensures TotalVertices(ms[..i + 1]) == TotalVertices(ms[..i]) + ms[i].numVertices
    ensures TotalFaces(ms[..i + 1]) == TotalFaces(ms[..i]) + ms[i].numFaces
    ensures TotalBones(ms[..i + 1]) == TotalBones(ms[..i]) + |ms[i].bones|
    ensures ScanLog(ms[..i + 1]) == ScanLog(ms[..i]) + MeshLog(i, ms[i])
  {
    assert ms[..i + 1][..i] == ms[..i];
  }

  /** Scanning a scene is scanning its meshes. */
  method ParseScene(scene: Scene) returns (report: Report)
    ensures report == SceneReport(scene)
  {
    report := ParseMeshes(scene);
  }

  // ---------------------------------------------------------------------------
  // Loading
  // ---------------------------------------------------------------------------

  /** The folder model files are read from, relative to the working directory. */
  const ModelsDir: string := "../Models/"

  /** The path a model file is read from: the models folder followed by the file name. */
  function ModelPath(filename: string): (path: string)
    ensures |path| == |ModelsDir| + |filename|
    ensures path[..|ModelsDir|] == ModelsDir && path[|ModelsDir|..] == filename
  {
    ModelsDir + filename
  }

  /** Different file names are read from different paths. */
  lemma ModelPathInjective(a: string, b: string)
    requires ModelPath(a) == ModelPath(b)
    ensures a == b
  {
  }

  /**
   * Reads a model through the importer and scans it. Fails, reporting
   * nothing, exactly when the importer yields no scene.
   */
  method LoadModel(filename: string, importer: string -> Option<Scene>) returns (ok: bool, report: Option<Report>)
    ensures ok <==> importer(ModelPath(filename)).Some?
    ensures !ok ==> report == None
    ensures ok ==> report == Some(SceneReport(importer(ModelPath(filename)).value))
  {
    var fullPath := ModelPath(filename);
    var scene := importer(fullPath);
    if scene.None? {
      return false, None;
    }
    var r := ParseScene(scene.value);
    return true, Some(r);
  }

  // ---------------------------------------------------------------------------
  // Properties of the scan
  // ---------------------------------------------------------------------------

  /** 0, 1, ..., n - 1. */
  function Iota(n: nat): (r: seq<nat>)
    ensures |r| == n
  {
    if n == 0 then [] else Iota(n - 1) + [n - 1]
  }

  datatype Kind = MeshKind | BoneKind | WeightKind

  function KindOf(v: Visit): Kind
  {
    match v
    case MeshVisit(_, _, _, _, _) => MeshKind
    case BoneVisit(_, _, _) => BoneKind
    case WeightVisit(_, _, _) => WeightKind
  }

  /** The position each visit carries: mesh number, bone number or weight slot. */
  function Position(v: Visit): nat
  {
    match v
    case MeshVisit(i, _, _, _, _) => i
    case BoneVisit(i, _, _) => i
    case WeightVisit(i, _, _) => i
  }

  /** The positions of the visits of one kind, in log order. */
  function Order(log: seq<Visit>, k: Kind): seq<nat>
  {
    if log == [] then []
    else (if KindOf(log[0]) == k then [Position(log[0])] else []) + Order(log[1..], k)
  }

  lemma {:induction false} OrderAppend(a: seq<Visit>, b: seq<Visit>, k: Kind)
    ensures Order(a + b, k) == Order(a, k) + Order(b, k)
  {
    if a != [] {
      assert (a + b)[1..] == a[1..] + b;
      OrderAppend(a[1..], b, k);
    } else {
      assert a + b == b;
    }
  }

  /** The visits of one kind themselves, in log order. */
  function Entries(log: seq<Visit>, k: Kind): seq<Visit>
  {
    if log == [] then []
    else (if KindOf(log[0]) == k then [log[0]] else []) + Entries(log[1..], k)
  }

  lemma {:induction false} EntriesAppend(a: seq<Visit>, b: seq<Visit>, k: Kind)
    ensures Entries(a + b, k) == Entries(a, k) + Entries(b, k)
  {
    if a != [] {
      assert (a + b)[1..] == a[1..] + b;
      EntriesAppend(a[1..], b, k);
    } else {
      assert a + b == b;
    }
  }

  /** The positions of one kind are the positions of that kind's entries, one for one. */
  lemma {:induction false} OrderIsEntryPositions(log: seq<Visit>, k: Kind)
    ensures |Order(log, k)| == |Entries(log, k)|
    ensures forall j :: 0 <= j < |Order(log, k)| ==> Order(log, k)[j] == Position(Entries(log, k)[j])
  {
    if log != [] {
      OrderIsEntryPositions(log[1..], k);
    }
  }

  /** A log with no position of some kind has no visit of that kind. */
  lemma {:induction false} NoEntriesWithoutOrder(log: seq<Visit>, k: Kind)
    requires Order(log, k) == []
    ensures Entries(log, k) == []
  {
    if log != [] {
      NoEntriesWithoutOrder(log[1..], k);
    }
  }

  /** Each weight of a bone is visited exactly once, in list order, at its own slot. */
  lemma {:induction false} WeightsVisitedOnceInOrder(ws: seq<VertexWeight>)
    ensures |WeightsLog(ws)| == |ws|
    ensures forall j :: 0 <= j < |ws| ==> WeightsLog(ws)[j] == WeightVisit(j, ws[j].vertexId, ws[j].weight)
  {
    if ws != [] {
      WeightsVisitedOnceInOrder(ws[..|ws| - 1]);
    }
  }

  /** A bone's entry comes first; its weight slots follow as 0, 1, ..., in order. */
  lemma {:induction false} BoneLogOrder(i: nat, b: Bone)
    ensures Order(BoneLog(i, b), BoneKind) == [i]
    ensures Order(BoneLog(i, b), MeshKind) == []
    ensures Order(BoneLog(i, b), WeightKind) == Iota(|b.weights|)
  {
    WeightsOrder(b.weights);
    OrderAppend([BoneVisit(i, b.name, |b.weights|)], WeightsLog(b.weights), BoneKind);
    OrderAppend([BoneVisit(i, b.name, |b.weights|)], WeightsLog(b.weights), MeshKind);
    OrderAppend([BoneVisit(i, b.name, |b.weights|)], WeightsLog(b.weights), WeightKind);
  }

  lemma {:induction false} WeightsOrder(ws: seq<VertexWeight>)
    ensures Order(WeightsLog(ws), BoneKind) == []
    ensures Order(WeightsLog(ws), MeshKind) == []
    ensures Order(WeightsLog(ws), WeightKind) == Iota(|ws|)
  {
    if ws != [] {
      var n := |ws| - 1;
      var w := [WeightVisit(n, ws[n].vertexId, ws[n].weight)];
      WeightsOrder(ws[..n]);
      OrderAppend(WeightsLog(ws[..n]), w, BoneKind);
      OrderAppend(WeightsLog(ws[..n]), w, MeshKind);
      OrderAppend(WeightsLog(ws[..n]), w, WeightKind);
    }
  }

  /**
   * The bones of a mesh are visited exactly once each, as 0, 1, ..., in
   * order; the k-th bone entry is bone k's name and weight count; no mesh
   * entry is among them.
   */
  lemma {:induction false} BonesVisitedInOrder(bs: seq<Bone>)
    ensures Order(BonesLog(bs), BoneKind) == Iota(|bs|)
    ensures Order(BonesLog(bs), MeshKind) == []
    ensures |Entries(BonesLog(bs), BoneKind)| == |bs|
    ensures forall k :: 0 <= k < |bs| ==>
              Entries(BonesLog(bs), BoneKind)[k] == BoneVisit(k, bs[k].name, |bs[k].weights|)
  {
    if bs != [] {
      var n := |bs| - 1;
      var pre := bs[..n];
      BonesVisitedInOrder(pre);
      BoneLogOrder(n, bs[n]);
      OrderAppend(BonesLog(pre), BoneLog(n, bs[n]), BoneKind);
      OrderAppend(BonesLog(pre), BoneLog(n, bs[n]), MeshKind);
      BoneLogEntries(n, bs[n]);
      EntriesAppend(BonesLog(pre), BoneLog(n, bs[n]), BoneKind);
      var e := Entries(BonesLog(bs), BoneKind);
      assert e == Entries(BonesLog(pre), BoneKind) + [BoneVisit(n, bs[n].name, |bs[n].weights|)];
      forall k | 0 <= k < |bs|
        ensures e[k] == BoneVisit(k, bs[k].name, |bs[k].weights|)
      {
        if k < n {
          assert pre[k] == bs[k];
        }
      }
    }
  }

  /** A bone's log holds exactly one bone entry: its own, with its name and weight count. */
  lemma BoneLogEntries(i: nat, b: Bone)
    ensures Entries(BoneLog(i, b), BoneKind) == [BoneVisit(i, b.name, |b.weights|)]
  {
    var head := [BoneVisit(i, b.name, |b.weights|)];
    WeightsOrder(b.weights);
    NoEntriesWithoutOrder(WeightsLog(b.weights), BoneKind);
    EntriesAppend(head, WeightsLog(b.weights), BoneKind);
    assert head[1..] == [];
  }

  /**
   * A mesh is visited once, at its own position; its bones are walked only
   * when it has any, and then as 0, 1, ..., in order.
   */
  lemma MeshLogOrder(i: nat, m: Mesh)
    ensures Order(MeshLog(i, m), MeshKind) == [i]
    ensures Order(MeshLog(i, m), BoneKind) == Iota(|m.bones|)
    ensures Entries(MeshLog(i, m), MeshKind) == [MeshVisit(i, m.name, m.numVertices, 3 * m.numFaces, |m.bones|)]
    ensures |Entries(MeshLog(i, m), BoneKind)| == |m.bones|
    ensures forall k :: 0 <= k < |m.bones| ==>
              Entries(MeshLog(i, m), BoneKind)[k] == BoneVisit(k, m.bones[k].name, |m.bones[k].weights|)
    ensures !HasBones(m) ==> MeshLog(i, m) == [MeshVisit(i, m.name, m.numVertices, 3 * m.numFaces, 0)]
  {
    var head := [MeshVisit(i, m.name, m.numVertices, 3 * m.numFaces, |m.bones|)];
    var rest := if HasBones(m) then BonesLog(m.bones) else [];
    BonesVisitedInOrder(m.bones);
    OrderAppend(head, rest, MeshKind);
    OrderAppend(head, rest, BoneKind);
    NoEntriesWithoutOrder(rest, MeshKind);
    EntriesAppend(head, rest, MeshKind);
    EntriesAppend(head, rest, BoneKind);
    assert head[1..] == [];
  }

  /** The meshes of a scene are visited exactly once each, as 0, 1, ..., in order. */
  lemma {:induction false} MeshesVisitedInOrder(ms: seq<Mesh>)
    ensures Order(ScanLog(ms), MeshKind) == Iota(|ms|)
    ensures |Entries(ScanLog(ms), MeshKind)| == |ms|
    ensures forall i :: 0 <= i < |ms| ==>
              Entries(ScanLog(ms), MeshKind)[i]
              == MeshVisit(i, ms[i].name, ms[i].numVertices, 3 * ms[i].numFaces, |ms[i].bones|)
  {
    if ms != [] {
      var n := |ms| - 1;
      var pre := ms[..n];
      MeshesVisitedInOrder(pre);
      MeshLogOrder(n, ms[n]);
      OrderAppend(ScanLog(pre), MeshLog(n, ms[n]), MeshKind);
      EntriesAppend(ScanLog(pre), MeshLog(n, ms[n]), MeshKind);
      var e := Entries(ScanLog(ms), MeshKind);
      forall i | 0 <= i < |ms|
        ensures e[i] == MeshVisit(i, ms[i].name, ms[i].numVertices, 3 * ms[i].numFaces, |ms[i].bones|)
      {
        if i < n {
          assert pre[i] == ms[i];
        }
      }
    }
  }

  /** The sum of the per-mesh counts reported in a log. */
  function LoggedTotals(log: seq<Visit>): Totals
  {
    if log == [] then Totals(0, 0, 0)
    else
      var rest := LoggedTotals(log[1..]);
      match log[0]
      case MeshVisit(_, _, v, x, b) => Totals(v + rest.vertices, x + rest.indices, b + rest.bones)
      case _ => rest
  }

  lemma {:induction false} LoggedTotalsAppend(a: seq<Visit>, b: seq<Visit>)
    ensures LoggedTotals(a + b).vertices == LoggedTotals(a).vertices + LoggedTotals(b).vertices
    ensures LoggedTotals(a + b).indices == LoggedTotals(a).indices + LoggedTotals(b).indices
    ensures LoggedTotals(a + b).bones == LoggedTotals(a).bones + LoggedTotals(b).bones
  {
    if a != [] {
      assert (a + b)[1..] == a[1..] + b;
      LoggedTotalsAppend(a[1..], b);
    } else {
      assert a + b == b;
    }
  }

  /** A log without mesh entries reports nothing towards the totals. */
  lemma {:induction false} NoMeshVisitsNoCounts(log: seq<Visit>)
    requires Order(log, MeshKind) == []
    ensures LoggedTotals(log) == Totals(0, 0, 0)
  {
    if log != [] {
      NoMeshVisitsNoCounts(log[1..]);
    }
  }

  /** The per-mesh counts in the log add up to the scene totals the scan reports. */
  lemma {:induction false} ReportedCountsAddUp(ms: seq<Mesh>)
    ensures LoggedTotals(ScanLog(ms)) == SceneTotals(ms)
  {
    if ms != [] {
      var n := |ms| - 1;
      var m := ms[n];
      ReportedCountsAddUp(ms[..n]);
      var rest := if HasBones(m) then BonesLog(m.bones) else [];
      BonesVisitedInOrder(m.bones);
      NoMeshVisitsNoCounts(rest);
      LoggedTotalsAppend([MeshVisit(n, m.name, m.numVertices, 3 * m.numFaces, |m.bones|)], rest);
      LoggedTotalsAppend(ScanLog(ms[..n]), MeshLog(n, m));
    }
  }
}
