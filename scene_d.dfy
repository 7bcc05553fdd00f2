/** Scene D (KKA Hongkou SOHO): a rounded-rectangle tower whose height and taper,
    and a ring of vertical fins whose count and tilt, follow two hand parameters. */
module SceneD {
  import opened Reals

  // ---------------------------------------------------------------------------
  // Parameter combination and the numeric maps

  /** `_getParamValue`: the sum of the parameters of the hands whose assigned name
      is `targetName`, capped at 1. */
  function GetParamValue(targetName: string, pL: real, pR: real, nameL: string, nameR: string): (r: real)
    ensures r <= 1.0
    ensures nameL != targetName && nameR != targetName ==> r == 0.0
    ensures nameL == targetName && nameR != targetName ==> r == Min(pL, 1.0)
    ensures nameL != targetName && nameR == targetName ==> r == Min(pR, 1.0)
    ensures nameL == targetName && nameR == targetName ==> r == Min(pL + pR, 1.0)
  {
    var fromLeft := if nameL == targetName then pL else 0.0;
    var fromRight := if nameR == targetName then pR else 0.0;
    Min(0.0 + fromLeft + fromRight, 1.0)
  }

  /** With both hand parameters in [0, 1] every combined parameter is in [0, 1]. */
  lemma ParamValueInUnit(targetName: string, pL: real, pR: real, nameL: string, nameR: string)
    requires 0.0 <= pL <= 1.0 && 0.0 <= pR <= 1.0
    ensures 0.0 <= GetParamValue(targetName, pL, pR, nameL, nameR) <= 1.0
  {
  }

  /** Extrusion depth of the tower, `50 + heightParam * 70`. */
  function TowerHeight(h: real): (r: real)
    ensures 0.0 <= h <= 1.0 ==> 50.0 <= r <= 120.0
    ensures h >= 0.0 ==> r >= 50.0
  {
    50.0 + h * 70.0
  }

  /** Relative size of the top face, `1 - 0.3 * taperParam`. */
  function TopScale(t: real): (r: real)
    ensures 0.0 <= t <= 1.0 ==> 0.7 <= r <= 1.0
  {
    1.0 - 0.3 * t
  }

  /** Fin tilt in degrees, `finVal * 45` (the source converts it to radians for Three.js). */
  function FinAngleDeg(v: real): (r: real)
    ensures 0.0 <= v <= 1.0 ==> 0.0 <= r <= 45.0
  {
    v * 45.0
  }

  /** `Math.floor(8 + finCountVal * 56)`. */
  function FinCount(v: real): (n: int)
    ensures n as real <= 8.0 + v * 56.0 < n as real + 1.0
    ensures 0.0 <= v <= 1.0 ==> 8 <= n <= 64
  {
    (8.0 + v * 56.0).Floor
  }

  /** The scale applied to a vertex at relative height `ratio`: interpolates from 1
      at the base to `topScale` at the top. */
  function ScaleFactor(topScale: real, ratio: real): real {
    1.0 - (1.0 - topScale) * ratio
  }

  lemma ScaleFactorEnds(topScale: real)
    ensures ScaleFactor(topScale, 0.0) == 1.0
    ensures ScaleFactor(topScale, 1.0) == topScale
  {
  }

  /** Between base and top the factor lies between `topScale` and 1, and shrinks
      as the ratio grows. */
  lemma ScaleFactorBetween(topScale: real, ratio: real, ratio': real)
    requires topScale <= 1.0 && 0.0 <= ratio <= ratio' <= 1.0
    ensures topScale <= ScaleFactor(topScale, ratio') <= ScaleFactor(topScale, ratio) <= 1.0
  {
    var k := 1.0 - topScale;
    assert k >= 0.0;
    assert k * ratio' - k * ratio == k * (ratio' - ratio) >= 0.0;
    assert k - k * ratio' == k * (1.0 - ratio') >= 0.0;
    assert k * ratio >= 0.0;
  }

  // ---------------------------------------------------------------------------
  // Tapering the extruded tower's vertices in place

  datatype Vertex = Vertex(x: real, y: real, z: real)

  /** A vertex after the taper: x and y scaled by the factor of its relative height. */
  function Tapered(v: Vertex, newHeight: real, topScale: real): Vertex
    requires newHeight != 0.0
  {
    var f := ScaleFactor(topScale, v.z / newHeight);
    Vertex(v.x * f, v.y * f, v.z)
  }

  /** Base vertices stay put and top vertices are scaled by exactly `topScale`. */
  lemma TaperEnds(v: Vertex, newHeight: real, topScale: real)
    requires newHeight > 0.0
    ensures v.z == 0.0 ==> Tapered(v, newHeight, topScale) == v
    ensures v.z == newHeight ==> Tapered(v, newHeight, topScale) == Vertex(v.x * topScale, v.y * topScale, v.z)
  {
  }

  /** A vertex between base and top never moves outward, nor further in than the
      top face does. */
  lemma TaperShrinks(v: Vertex, newHeight: real, topScale: real)
    requires newHeight > 0.0 && 0.0 <= topScale <= 1.0 && 0.0 <= v.z <= newHeight
    ensures var w := Tapered(v, newHeight, topScale);
            w.x * w.x <= v.x * v.x && w.y * w.y <= v.y * v.y
            && (topScale * v.x) * (topScale * v.x) <= w.x * w.x
            && (topScale * v.y) * (topScale * v.y) <= w.y * w.y
  {
    var ratio := v.z / newHeight;
    RatioInUnit(v.z, newHeight);
    var f := ScaleFactor(topScale, ratio);
    ScaleFactorBetween(topScale, 0.0, ratio);
    ScaleFactorBetween(topScale, ratio, 1.0);
    SquareBetween(v.x, topScale, f, 1.0);
    SquareBetween(v.y, topScale, f, 1.0);
  }

  lemma RatioInUnit(z: real, h: real)
    requires 0.0 <= z <= h && h > 0.0
    ensures 0.0 <= z / h <= 1.0
  {
    var r := z / h;
    var q := 1.0 / h;
    if q <= 0.0 {
      MulMono(q, 0.0, h);
      assert false;
    }
    MulMono(0.0, z, 1.0 / h);
    MulMono(z, h, 1.0 / h);
    assert z * (1.0 / h) == r;
    assert h * (1.0 / h) == 1.0;
  }

  lemma MulMono(a: real, b: real, c: real)
    requires a <= b && c >= 0.0
    ensures a * c <= b * c
  {
    assert b * c - a * c == (b - a) * c;
  }

  /** Scaling by factors `0 <= f <= g` gives squares in the same order. */
  lemma SquareBetween(a: real, f: real, g: real, h: real)
    requires 0.0 <= f <= g <= h
    ensures (f * a) * (f * a) <= (a * g) * (a * g) <= (a * h) * (a * h)
  {
    assert (f * a) * (f * a) == (f * f) * (a * a);
    assert (a * g) * (a * g) == (g * g) * (a * a);
    assert (a * h) * (a * h) == (h * h) * (a * a);
    MulMono(f, g, f);
    MulMono(f, g, g);
    MulMono(g, h, g);
    MulMono(g, h, h);
    SquareNonNegative(a);
    assert f * f <= f * g <= g * g;
    MulMono(f * f, g * g, a * a);
    assert g * g <= g * h <= h * h;
    MulMono(g * g, h * h, a * a);
  }

  lemma SquareNonNegative(a: real)
    ensures a * a >= 0.0
  {
    if a >= 0.0 {
      MulMono(0.0, a, a);
    } else {
      MulMono(a, 0.0, -a);
      assert a * -a == -(a * a);
    }
  }

  /** The vertex loop of `_updateTowerMesh`: every vertex of the freshly extruded
      position buffer is scaled towards the axis according to its height. */
  method TaperVertices(pos: array<Vertex>, newHeight: real, topScale: real)
    requires newHeight != 0.0
    modifies pos
    ensures forall i :: 0 <= i < pos.Length ==> pos[i] == Tapered(old(pos[i]), newHeight, topScale)
  {
    var i := 0;
    while i < pos.Length
      invariant 0 <= i <= pos.Length
      invariant forall j :: 0 <= j < i ==> pos[j] == Tapered(old(pos[j]), newHeight, topScale)
      invariant forall j :: i <= j < pos.Length ==> pos[j] == old(pos[j])
    {
      var zVal := pos[i].z;
      var ratio := zVal / newHeight;
      var scaleFactor := 1.0 - (1.0 - topScale) * ratio;
      var x0 := pos[i].x;
      var y0 := pos[i].y;
      pos[i] := Vertex(x0 * scaleFactor, y0 * scaleFactor, zVal);
      i := i + 1;
    }
  }

  // ---------------------------------------------------------------------------
  // The fin group

  /** Where a fin mesh stands. A new mesh sits at the origin with its default
      rotation; `_updateFinAngle` moves it onto the ring at `slot` (a fraction of
      the full circle), turns it towards the axis with `lookAt` and then adds a
      roll of `tiltDeg` degrees. */
  datatype Pose = AtOrigin | OnRing(slot: real, tiltDeg: real)

  /** One fin mesh. `serial` distinguishes the mesh objects the scene creates;
      `heightScale` is its vertical scale. */
  datatype Fin = Fin(serial: nat, pose: Pose, heightScale: real)

  /** The `count` fins `_createFins` builds: new meshes at the origin with their
      default rotation, unscaled. */
  function NewFins(firstSerial: nat, count: int): (fs: seq<Fin>)
    ensures |fs| == if count < 0 then 0 else count
    ensures forall i :: 0 <= i < |fs| ==> fs[i] == Fin(firstSerial + i, AtOrigin, 1.0)
  {
    if count <= 0 then [] else NewFins(firstSerial, count - 1) + [Fin(firstSerial + count - 1, AtOrigin, 1.0)]
  }

  /** The order in which the `pop` loop disposes the children: last first. */
  function Reversed(s: seq<Fin>): seq<Fin> {
    if s == [] then [] else [s[|s| - 1]] + Reversed(s[..|s| - 1])
  }

  lemma {:induction false} ReversedAt(s: seq<Fin>, k: nat)
    requires k < |s|
    ensures |Reversed(s)| == |s| && Reversed(s)[k] == s[|s| - 1 - k]
  {
    ReversedLength(s[..|s| - 1]);
    if k > 0 {
      ReversedAt(s[..|s| - 1], k - 1);
    }
  }

  lemma {:induction false} ReversedLength(s: seq<Fin>)
    ensures |Reversed(s)| == |s|
  {
    if s != [] {
      ReversedLength(s[..|s| - 1]);
    }
  }

  /** Every child disposed by a rebuild is one of the children it had, and each is
      disposed: the disposed fins are the old children, last first. */
  lemma DisposedAreOldChildren(s: seq<Fin>)
    ensures |Reversed(s)| == |s|
    ensures forall k :: 0 <= k < |s| ==> Reversed(s)[k] == s[|s| - 1 - k]
  {
    ReversedLength(s);
    forall k | 0 <= k < |s| ensures Reversed(s)[k] == s[|s| - 1 - k] {
      ReversedAt(s, k);
    }
  }

  /** What `_updateFinAngle` leaves in the group: fin `i` of `n` keeps its mesh
      and is placed on the ring at slot `i / n`, tilted by `angle` degrees and
      scaled to height 8. */
  function Placed(fs: seq<Fin>, angle: real): (ps: seq<Fin>)
    ensures |ps| == |fs|
  {
    seq(|fs|, i requires 0 <= i < |fs| => Fin(fs[i].serial, OnRing(i as real / |fs| as real, angle), 8.0))
  }

  /** `lookAt` resets each fin's orientation before the tilt is added, so placing
      the fins again with the same angle changes nothing, and a new angle simply
      replaces the old one. */
  lemma PlacedReplacesTilt(fs: seq<Fin>, a: real, b: real)
    ensures Placed(Placed(fs, a), b) == Placed(fs, b)
  {
  }

  /** The fins are spread evenly around the full circle, in order, each slot in [0, 1). */
  lemma {:induction false} SlotsSpreadEvenly(fs: seq<Fin>, angle: real, i: nat, j: nat)
    requires i < j < |fs|
    ensures 0.0 <= Placed(fs, angle)[i].pose.slot < Placed(fs, angle)[j].pose.slot < 1.0
  {
    var n := |fs| as real;
    assert i as real < j as real < n;
    assert i as real / n < j as real / n by {
      assert (j as real - i as real) / n > 0.0;
    }
    assert j as real / n < 1.0 by {
      assert j as real / n < n / n;
    }
  }

  class FinGroup {
    /** `finGroup.children`. */
    var children: seq<Fin>
    /** Fins whose geometry and material were disposed, in disposal order. */
    var disposed: seq<Fin>
    /** Serial number the next new fin mesh gets. */
    var nextSerial: nat

    /** Every child was created before the next serial was handed out. */
    ghost predicate Valid()
      reads this
    {
      forall i :: 0 <= i < |children| ==> children[i].serial < nextSerial
    }

    constructor ()
      ensures Valid() && children == [] && disposed == [] && nextSerial == 0
    {
      children := [];
      disposed := [];
      nextSerial := 0;
    }

    /** `_createFins(count)`: pop and dispose every child, then add `count` new fins
        (none for a negative count). */
    method CreateFins(count: int)
      requires Valid()
      modifies this
      ensures Valid()
      ensures children == NewFins(old(nextSerial), count)
      ensures disposed == old(disposed) + Reversed(old(children))
      ensures nextSerial == old(nextSerial) + |children|
      ensures forall i, j :: 0 <= i < |old(children)| && 0 <= j < |children| ==>
                old(children)[i].serial < children[j].serial
    {
      while |children| > 0
        invariant disposed + Reversed(children) == old(disposed) + Reversed(old(children))
        invariant nextSerial == old(nextSerial)
        decreases |children|
      {
        var child := children[|children| - 1];
        assert Reversed(children) == [child] + Reversed(children[..|children| - 1]);
        children := children[..|children| - 1];
        disposed := disposed + [child];
      }
      assert disposed == old(disposed) + Reversed(old(children));

      var first := nextSerial;
      var i := 0;
      while i < count
        invariant 0 <= i <= (if count < 0 then 0 else count)
        invariant children == NewFins(first, i)
        invariant nextSerial == first + i
        invariant disposed == old(disposed) + Reversed(old(children))
      {
        children := children + [Fin(nextSerial, AtOrigin, 1.0)];
        nextSerial := nextSerial + 1;
        i := i + 1;
      }
      assert children == NewFins(first, count);
    }

    /** `_updateFinCount(count)`: rebuild only when the number of children differs. */
    method UpdateFinCount(count: int)
      requires Valid()
      modifies this
      ensures Valid()
      ensures |old(children)| == count ==>
                children == old(children) && disposed == old(disposed) && nextSerial == old(nextSerial)
      ensures |old(children)| != count ==>
                children == NewFins(old(nextSerial), count)
                && disposed == old(disposed) + Reversed(old(children))
                && nextSerial == old(nextSerial) + |children|
      ensures count >= 0 ==> |children| == count
      ensures count < 0 ==> children == []
    {
      var currentCount := |children|;
      if currentCount != count {
        CreateFins(count);
      }
    }

    /** `_updateFinAngle(finVal)`: nothing for an empty group; otherwise every fin is
        placed at its slot, scaled to height 8 and tilted by `45 * finVal` degrees. */
    method UpdateFinAngle(finVal: real)
      modifies this
      ensures children == Placed(old(children), FinAngleDeg(finVal))
      ensures disposed == old(disposed) && nextSerial == old(nextSerial)
    {
      var angleDeg := finVal * 45.0;
      var count := |children|;
      if count == 0 {
        return;
      }
      var i := 0;
      while i < count
        invariant 0 <= i <= count == |children|
        invariant forall j :: 0 <= j < i ==>
                    children[j] == Fin(old(children)[j].serial, OnRing(j as real / count as real, angleDeg), 8.0)
        invariant forall j :: i <= j < count ==> children[j] == old(children)[j]
        invariant disposed == old(disposed) && nextSerial == old(nextSerial)
      {
        var fin := children[i];
        var t := i as real / count as real;
        children := children[i := Fin(fin.serial, OnRing(t, angleDeg), 8.0)];
        i := i + 1;
      }
    }
  }

  const TowerHeightName: string := "towerHeight"
  const TowerTaperName: string := "towerTaper"
  const FinAngleName: string := "finAngle"
  const FinCountName: string := "finCount"

  /** The scene after `init`: the tower, extruded to the default depth 80 and
      untapered, and 16 fins. */
  class Scene {
    var towerHeight: real
    var towerTopScale: real
    /** The position buffer of the tower's current geometry. */
    var geometry: array<Vertex>
    const finGroup: FinGroup

    ghost predicate Valid()
      reads this, finGroup
    {
      finGroup.Valid()
    }

    constructor Init(extruded: array<Vertex>)
      ensures Valid() && fresh(finGroup)
      ensures towerHeight == 80.0 && towerTopScale == 1.0 && geometry == extruded
      ensures finGroup.children == NewFins(0, 16)
    {
      towerHeight := 80.0;
      towerTopScale := 1.0;
      geometry := extruded;
      finGroup := new FinGroup();
      new;
      finGroup.CreateFins(16);
    }

    /** `_updateTowerMesh`: the new geometry, produced by Three.js for the new depth,
        is tapered in place and replaces the old one. */
    method UpdateTowerMesh(heightParam: real, taperParam: real, newGeo: array<Vertex>)
      requires TowerHeight(heightParam) != 0.0
      modifies this, newGeo
      ensures towerHeight == TowerHeight(heightParam) && towerTopScale == TopScale(taperParam)
      ensures geometry == newGeo
      ensures forall i :: 0 <= i < newGeo.Length ==>
                newGeo[i] == Tapered(old(newGeo[i]), towerHeight, towerTopScale)
    {
      var newHeight := 50.0 + heightParam * 70.0;
      var topScale := 1.0 - 0.3 * taperParam;
      TaperVertices(newGeo, newHeight, topScale);
      towerHeight := newHeight;
      towerTopScale := topScale;
      geometry := newGeo;
    }

    /** `update`: combine the hand parameters per target, then update the tower,
        the fin count and the fin tilt, in that order. */
    method Update(paramLeft: real, paramRight: real, leftParamName: string, rightParamName: string,
                  newGeo: array<Vertex>)
      requires Valid()
      requires TowerHeight(GetParamValue(TowerHeightName, paramLeft, paramRight, leftParamName, rightParamName)) != 0.0
      modifies this, finGroup, newGeo
      ensures Valid()
      ensures towerHeight == TowerHeight(GetParamValue(TowerHeightName, paramLeft, paramRight, leftParamName, rightParamName))
      ensures towerTopScale == TopScale(GetParamValue(TowerTaperName, paramLeft, paramRight, leftParamName, rightParamName))
      ensures geometry == newGeo
      ensures var n := FinCount(GetParamValue(FinCountName, paramLeft, paramRight, leftParamName, rightParamName));
              |finGroup.children| == (if n < 0 then 0 else n)
      ensures forall i :: 0 <= i < newGeo.Length ==>
                newGeo[i] == Tapered(old(newGeo[i]), towerHeight, towerTopScale)
      ensures var n := FinCount(GetParamValue(FinCountName, paramLeft, paramRight, leftParamName, rightParamName));
              var a := FinAngleDeg(GetParamValue(FinAngleName, paramLeft, paramRight, leftParamName, rightParamName));
              finGroup.children
              == Placed(if |old(finGroup.children)| == n then old(finGroup.children)
                        else NewFins(old(finGroup.nextSerial), n), a)
      ensures var n := FinCount(GetParamValue(FinCountName, paramLeft, paramRight, leftParamName, rightParamName));
              finGroup.disposed
              == old(finGroup.disposed) + (if |old(finGroup.children)| == n then [] else Reversed(old(finGroup.children)))
              && finGroup.nextSerial == old(finGroup.nextSerial) + (if |old(finGroup.children)| == n then 0 else (if n < 0 then 0 else n))
      ensures forall i :: 0 <= i < |finGroup.children| ==>
                finGroup.children[i].pose
                == OnRing(i as real / |finGroup.children| as real,
                          FinAngleDeg(GetParamValue(FinAngleName, paramLeft, paramRight, leftParamName, rightParamName)))
      ensures 0.0 <= paramLeft <= 1.0 && 0.0 <= paramRight <= 1.0 ==>
                50.0 <= towerHeight <= 120.0 && 0.7 <= towerTopScale <= 1.0
                && 8 <= |finGroup.children| <= 64
    {
      var towerH := GetParamValue(TowerHeightName, paramLeft, paramRight, leftParamName, rightParamName);
      var towerTaperVal := GetParamValue(TowerTaperName, paramLeft, paramRight, leftParamName, rightParamName);
      var finAngleVal := GetParamValue(FinAngleName, paramLeft, paramRight, leftParamName, rightParamName);
      var finCountVal := GetParamValue(FinCountName, paramLeft, paramRight, leftParamName, rightParamName);
      if 0.0 <= paramLeft <= 1.0 && 0.0 <= paramRight <= 1.0 {
        ParamValueInUnit(TowerHeightName, paramLeft, paramRight, leftParamName, rightParamName);
        ParamValueInUnit(TowerTaperName, paramLeft, paramRight, leftParamName, rightParamName);
        ParamValueInUnit(FinCountName, paramLeft, paramRight, leftParamName, rightParamName);
      }

      UpdateTowerMesh(towerH, towerTaperVal, newGeo);

      var finCount := (8.0 + finCountVal * 56.0).Floor;
      finGroup.UpdateFinCount(finCount);

      finGroup.UpdateFinAngle(finAngleVal);
    }
  }
}
