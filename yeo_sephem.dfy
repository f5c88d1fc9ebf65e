/** yeo_sephem.py: the 17-network Yeo atlas split into one region per
    network and hemisphere. Right-hemisphere voxels (x index 128 and above)
    of every network get 100 added to their label, and the label table is
    duplicated into a left and a right half accordingly.

    Fetching and reorienting the atlas image and writing the volume and
    the table are not modelled; the label volume is an input array. */
module YeoSephem {

  /** First x index of the right hemisphere. */
  const SplitX: int := 128

  /** What is added to a right-hemisphere label. */
  const Shift: int := 100

  /** The new label of a voxel at x index `x` with atlas label `value`. */
  function SplitLabel(x: int, value: int): (r: int)
    ensures x < SplitX ==> r == value
    ensures value == 0 ==> r == 0
    ensures x >= SplitX && value != 0 ==> r == value + Shift
  {
    value + (if x >= SplitX && value != 0 then Shift else 0)
  }

  /** The network a split label belongs to. */
  function Network(r: int): int
  {
    if r > Shift then r - Shift else r
  }

  /** For the atlas' labels (0 for background, network numbers below 100)
      the split keeps the network recoverable and marks exactly the
      right-hemisphere network voxels. */
  lemma SplitLabelRecoverable(x: int, value: int)
    requires 0 <= value < Shift
    ensures Network(SplitLabel(x, value)) == value
    ensures SplitLabel(x, value) > Shift <==> x >= SplitX && value != 0
  {
  }

  /** `offset = np.zeros_like(atlas); offset[128:, :, :] = 100;
      offset[atlas == 0] = 0`. */
  method OffsetVolume(atlas: array3<int>) returns (offset: array3<int>)
    ensures fresh(offset)
    ensures offset.Length0 == atlas.Length0 && offset.Length1 == atlas.Length1 && offset.Length2 == atlas.Length2
    ensures forall x, y, z :: 0 <= x < atlas.Length0 && 0 <= y < atlas.Length1 && 0 <= z < atlas.Length2 ==>
      offset[x, y, z] == if x >= SplitX && atlas[x, y, z] != 0 then Shift else 0
  {
    offset := new int[atlas.Length0, atlas.Length1, atlas.Length2]((x, y, z) => 0);
    forall x, y, z | SplitX <= x < offset.Length0 && 0 <= y < offset.Length1 && 0 <= z < offset.Length2 {
      offset[x, y, z] := Shift;
    }
    forall x, y, z | 0 <= x < offset.Length0 && 0 <= y < offset.Length1 && 0 <= z < offset.Length2 &&
                     atlas[x, y, z] == 0 {
      offset[x, y, z] := 0;
    }
  }

  /** `math_img("im1 + im2", ...)`: the voxel-wise sum of two volumes. */
  method AddVolumes(a: array3<int>, b: array3<int>) returns (sum: array3<int>)
    requires a.Length0 == b.Length0 && a.Length1 == b.Length1 && a.Length2 == b.Length2
    ensures fresh(sum)
    ensures sum.Length0 == a.Length0 && sum.Length1 == a.Length1 && sum.Length2 == a.Length2
    ensures forall x, y, z :: 0 <= x < a.Length0 && 0 <= y < a.Length1 && 0 <= z < a.Length2 ==>
      sum[x, y, z] == a[x, y, z] + b[x, y, z]
  {
    sum := new int[a.Length0, a.Length1, a.Length2]((x, y, z) reads a, b =>
      if 0 <= x < a.Length0 && 0 <= y < a.Length1 && 0 <= z < a.Length2 then a[x, y, z] + b[x, y, z] else 0);
  }

  /** The split volume: every voxel relabelled by `SplitLabel`, so the left
      hemisphere and the background are unchanged and the right-hemisphere
      network voxels are shifted by exactly 100. */
  method SplitVolume(atlas: array3<int>) returns (split: array3<int>)
    ensures fresh(split)
    ensures split.Length0 == atlas.Length0 && split.Length1 == atlas.Length1 && split.Length2 == atlas.Length2
    ensures forall x, y, z :: 0 <= x < atlas.Length0 && 0 <= y < atlas.Length1 && 0 <= z < atlas.Length2 ==>
      split[x, y, z] == SplitLabel(x, atlas[x, y, z])
  {
    var offset := OffsetVolume(atlas);
    split := AddVolumes(atlas, offset);
  }

  // ---------------------------------------------------------------------
  // The label table
  // ---------------------------------------------------------------------

  /** The default-mode subnetwork column, empty for most networks. */
  datatype Subnetwork = NoSubnetwork | Subnetwork(name: string)

  datatype NetworkRow = NetworkRow(roi: int, roiName: string, dmnSubnetwork: Subnetwork)

  datatype LabelRow = LabelRow(roi: int, roiName: string, dmnSubnetwork: Subnetwork, hemi: string)

  /** The 17 networks, as the embedded table lists them. */
  const Yeo17: seq<NetworkRow> := [
    NetworkRow(1, "Visual A", NoSubnetwork),
    NetworkRow(2, "Visual B", NoSubnetwork),
    NetworkRow(3, "SomMot A", NoSubnetwork),
    NetworkRow(4, "SomMot B", NoSubnetwork),
    NetworkRow(5, "DorsAttn A", NoSubnetwork),
    NetworkRow(6, "DorsAttn B", NoSubnetwork),
    NetworkRow(7, "SalVentAttn A", NoSubnetwork),
    NetworkRow(8, "SalVentAttn B", NoSubnetwork),
    NetworkRow(9, "Limbic B", NoSubnetwork),
    NetworkRow(10, "Limbic A", NoSubnetwork),
    NetworkRow(11, "Control C", NoSubnetwork),
    NetworkRow(12, "Control A", NoSubnetwork),
    NetworkRow(13, "Control B", NoSubnetwork),
    NetworkRow(14, "TempPar", NoSubnetwork),
    NetworkRow(15, "Default C", Subnetwork("mtl")),
    NetworkRow(16, "Default A", Subnetwork("core")),
    NetworkRow(17, "Default B", Subnetwork("dorsal medial"))]

  /** The table numbers its networks 1 to 17 in order. */
  lemma Yeo17Numbering()
    ensures |Yeo17| == 17
    ensures forall i :: 0 <= i < 17 ==> Yeo17[i].roi == i + 1
  {
  }

  /** `df["hemi"] = hemi` on a copy of the network table. */
  function WithHemi(base: seq<NetworkRow>, hemi: string): (t: seq<LabelRow>)
    ensures |t| == |base|
    ensures forall i :: 0 <= i < |base| ==>
      t[i] == LabelRow(base[i].roi, base[i].roiName, base[i].dmnSubnetwork, hemi)
  {
    seq(|base|, i requires 0 <= i < |base| =>
      LabelRow(base[i].roi, base[i].roiName, base[i].dmnSubnetwork, hemi))
  }

  /** `df["roi"] += k`. */
  function ShiftRoi(t: seq<LabelRow>, k: int): (r: seq<LabelRow>)
    ensures |r| == |t|
    ensures forall i :: 0 <= i < |t| ==> r[i] == t[i].(roi := t[i].roi + k)
  {
    seq(|t|, i requires 0 <= i < |t| => t[i].(roi := t[i].roi + k))
  }

  /** The split label table: the left half keeps the network numbers, the
      right half has them shifted by 100, and the left half comes first. */
  method SplitLabels(base: seq<NetworkRow>) returns (combined: seq<LabelRow>)
    ensures |combined| == 2 * |base|
    ensures forall i :: 0 <= i < |base| ==>
      combined[i] == LabelRow(base[i].roi, base[i].roiName, base[i].dmnSubnetwork, "lh")
    ensures forall i :: 0 <= i < |base| ==>
      combined[|base| + i] == LabelRow(base[i].roi + Shift, base[i].roiName, base[i].dmnSubnetwork, "rh")
  {
    var lh := WithHemi(base, "lh");
    var rh := WithHemi(base, "rh");
    rh := ShiftRoi(rh, Shift);
    combined := lh + rh;
  }

  function Rois(t: seq<LabelRow>): set<int>
  {
    set i | 0 <= i < |t| :: t[i].roi
  }

  /** With network numbers between 1 and 99 the two halves use disjoint
      labels, and the labels of the table are exactly what the volume split
      produces: the network number on the left and the network number plus
      100 on the right. */
  lemma SplitLabelsMatchVolume(base: seq<NetworkRow>, combined: seq<LabelRow>)
    requires forall i :: 0 <= i < |base| ==> 0 < base[i].roi < Shift
    requires |combined| == 2 * |base|
    requires forall i :: 0 <= i < |base| ==>
      combined[i] == LabelRow(base[i].roi, base[i].roiName, base[i].dmnSubnetwork, "lh")
    requires forall i :: 0 <= i < |base| ==>
      combined[|base| + i] == LabelRow(base[i].roi + Shift, base[i].roiName, base[i].dmnSubnetwork, "rh")
    ensures Rois(combined[..|base|]) !! Rois(combined[|base|..])
    ensures forall i, x :: 0 <= i < |base| && x < SplitX ==> combined[i].roi == SplitLabel(x, base[i].roi)
    ensures forall i, x :: 0 <= i < |base| && x >= SplitX ==> combined[|base| + i].roi == SplitLabel(x, base[i].roi)
  {
    var lh := combined[..|base|];
    var rh := combined[|base|..];
    forall r | r in Rois(lh) ensures r < Shift {
      var i :| 0 <= i < |lh| && lh[i].roi == r;
      assert lh[i] == combined[i];
    }
    forall r | r in Rois(rh) ensures r > Shift {
      var j :| 0 <= j < |rh| && rh[j].roi == r;
      assert j < |base|;
      assert rh[j] == combined[|base| + j];
      assert rh[j].roi == base[j].roi + Shift;
    }
  }

  /** The Yeo table split: 34 rows, left ids 1 to 17, right ids 101 to 117. */
  lemma Yeo17Split(combined: seq<LabelRow>)
    requires |combined| == 2 * |Yeo17|
    requires forall i :: 0 <= i < |Yeo17| ==>
      combined[i] == LabelRow(Yeo17[i].roi, Yeo17[i].roiName, Yeo17[i].dmnSubnetwork, "lh")
    requires forall i :: 0 <= i < |Yeo17| ==>
      combined[|Yeo17| + i] == LabelRow(Yeo17[i].roi + Shift, Yeo17[i].roiName, Yeo17[i].dmnSubnetwork, "rh")
    ensures |combined| == 34
    ensures forall i :: 0 <= i < 17 ==> combined[i].roi == i + 1 && combined[i].hemi == "lh"
    ensures forall i :: 17 <= i < 34 ==> combined[i].roi == i + 84 && combined[i].hemi == "rh"
    ensures Rois(combined[..17]) !! Rois(combined[17..])
  {
    Yeo17Numbering();
    SplitLabelsMatchVolume(Yeo17, combined);
    forall i | 17 <= i < 34 ensures combined[i].roi == i + 84 && combined[i].hemi == "rh" {
      assert combined[17 + (i - 17)] == LabelRow(Yeo17[i - 17].roi + Shift, Yeo17[i - 17].roiName,
                                               Yeo17[i - 17].dmnSubnetwork, "rh");
    }
  }
}
