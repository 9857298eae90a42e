/** The plot drivers `toHeatmap` and `toScatter` of axify/axify.py: the default
    axis and value ranges, the `dctPlotInfo` dictionary handed to the template,
    and the caller's `themeArgs` merged over it.  The raster image and the file
    writes are not modelled; whether the image was written is a parameter. */
module Plot {
  import opened Wrappers
  import ColorMaps
  import Pgf

  /** A two-dimensional numpy array: its shape `(shape0, shape1)` and its rows. */
  datatype NdArray = NdArray(shape0: nat, shape1: nat, rows: seq<seq<real>>)

  type Array2 = a: NdArray | |a.rows| == a.shape0 && forall i :: 0 <= i < |a.rows| ==> |a.rows[i]| == a.shape1
    witness NdArray(0, 0, [])

  /** The exceptions the drivers can raise: a missing column or a short limit
      list (`IndexError`), a reduction over no values (`ValueError`). */
  datatype PyError = IndexError | ValueError

  /** A value stored in `dctPlotInfo`. */
  datatype Value = Num(x: real) | Text(s: string)

  /** What a driver leaves behind: the dictionary given to `_compose`, or only a
      message because the image could not be written. */
  datatype Output = Composed(plotInfo: map<string, Value>) | ImageNotWritten

  ghost predicate Least(m: real, s: seq<real>)
  {
    m in s && forall x :: x in s ==> m <= x
  }

  ghost predicate Greatest(m: real, s: seq<real>)
  {
    m in s && forall x :: x in s ==> x <= m
  }

  /** `np.min` of a non-empty vector. */
  function Min(s: seq<real>): (m: real)
    requires |s| > 0
    ensures Least(m, s)
  {
    if |s| == 1 then s[0]
    else
      var m := Min(s[1..]);
      assert forall x :: x in s ==> x == s[0] || x in s[1..];
      if s[0] <= m then s[0] else m
  }

  /** `np.max` of a non-empty vector. */
  function Max(s: seq<real>): (m: real)
    requires |s| > 0
    ensures Greatest(m, s)
  {
    if |s| == 1 then s[0]
    else
      var m := Max(s[1..]);
      assert forall x :: x in s ==> x == s[0] || x in s[1..];
      if m <= s[0] then s[0] else m
  }

  /** The rows laid end to end, as numpy reduces over a whole array. */
  function Flatten(rows: seq<seq<real>>): (r: seq<real>)
    ensures |r| == 0 <==> forall i :: 0 <= i < |rows| ==> |rows[i]| == 0
  {
    if rows == [] then [] else rows[0] + Flatten(rows[1..])
  }

  /** The flattened rows hold every entry of every row and nothing else. */
  lemma {:induction false} FlattenMembers(rows: seq<seq<real>>)
    ensures forall i, j :: 0 <= i < |rows| && 0 <= j < |rows[i]| ==> rows[i][j] in Flatten(rows)
    ensures forall x :: x in Flatten(rows) ==> exists i, j :: 0 <= i < |rows| && 0 <= j < |rows[i]| && rows[i][j] == x
  {
    if rows != [] {
      FlattenMembers(rows[1..]);
      assert forall i, j :: 1 <= i < |rows| && 0 <= j < |rows[i]| ==> rows[i][j] == rows[1..][i - 1][j];
      assert forall x :: x in rows[0] ==> rows[0][IndexOf(rows[0], x)] == x;
    }
  }

  function IndexOf(s: seq<real>, x: real): (k: nat)
    requires x in s
    ensures k < |s| && s[k] == x
  {
    if s[0] == x then 0 else 1 + IndexOf(s[1..], x)
  }

  /** Every cell of the array. */
  function Elements(a: Array2): (r: seq<real>)
    ensures |r| == 0 <==> a.shape0 == 0 || a.shape1 == 0
  {
    var r := Flatten(a.rows);
    assert a.shape0 > 0 && a.shape1 > 0 ==> |a.rows[0]| > 0;
    r
  }

  /** The cells are exactly the entries of the array. */
  lemma ElementsMembers(a: Array2)
    ensures forall x :: x in Elements(a) <==>
      exists i, j :: 0 <= i < a.shape0 && 0 <= j < a.shape1 && a.rows[i][j] == x
  {
    FlattenMembers(a.rows);
  }

  /** `arr[:, k]`. */
  function Column(a: Array2, k: nat): (c: seq<real>)
    requires k < a.shape1
    ensures |c| == a.shape0 && forall i :: 0 <= i < a.shape0 ==> c[i] == a.rows[i][k]
  {
    seq(a.shape0, i requires 0 <= i < a.shape0 => a.rows[i][k])
  }

  /** `arr[:, k]`, raising `IndexError` when the array has no column `k`. */
  function NpColumn(a: Array2, k: nat): (r: Result<seq<real>, PyError>)
    ensures r.Ok? <==> k < a.shape1
    ensures r.Ok? ==> r.value == Column(a, k)
    ensures r.Err? ==> r.error == IndexError
  {
    if k < a.shape1 then Ok(Column(a, k)) else Err(IndexError)
  }

  /** `[np.min(v), np.max(v)]`, raising `ValueError` on an empty vector. */
  function Extent(v: seq<real>): (r: Result<seq<real>, PyError>)
    ensures r.Ok? <==> |v| > 0
    ensures r.Ok? ==> |r.value| == 2 && Least(r.value[0], v) && Greatest(r.value[1], v)
    ensures r.Err? ==> r.error == ValueError
  {
    if |v| == 0 then Err(ValueError) else Ok([Min(v), Max(v)])
  }

  /** The keys of the dictionary literal `dctPlotInfo`. */
  const InfoKeys: set<string> :=
    {"dataMin", "dataMax", "xMin", "xMax", "xLabel", "yMin", "yMax", "yLabel", "savePath", "imagePath", "colormap"}

  /** The dictionary literal `dctPlotInfo`, before the caller's fields are merged in. */
  function PlotInfo(z: seq<real>, x: seq<real>, y: seq<real>, xLabel: string, yLabel: string,
                    savePath: string, imagePath: string, colormap: string): (d: map<string, Value>)
    requires |z| >= 2 && |x| >= 2 && |y| >= 2
    ensures d.Keys == InfoKeys
  {
    map["dataMin" := Num(z[0]), "dataMax" := Num(z[1]),
        "xMin" := Num(x[0]), "xMax" := Num(x[1]), "xLabel" := Text(xLabel),
        "yMin" := Num(y[0]), "yMax" := Num(y[1]), "yLabel" := Text(yLabel),
        "savePath" := Text(savePath), "imagePath" := Text(imagePath), "colormap" := Text(colormap)]
  }

  /** `d.update(args)`: every key of `args` takes the caller's value, every other
      key of `d` keeps its own, and no other key appears. */
  function Update(d: map<string, Value>, args: map<string, Value>): (r: map<string, Value>)
    ensures r.Keys == d.Keys + args.Keys
    ensures forall k :: k in args ==> r[k] == args[k]
    ensures forall k :: k in d && k !in args ==> r[k] == d[k]
  {
    d + args
  }

  /** Python's `lim[0]` and `lim[1]` succeed. */
  predicate Indexable(lim: seq<real>)
  {
    |lim| >= 2
  }

  /** The three ranges a driver puts into `dctPlotInfo`: x, y and data values. */
  datatype Limits = Limits(x: seq<real>, y: seq<real>, z: seq<real>)

  /** `toHeatmap`'s ranges.  An empty limit defaults to the array's extent:
      `[0, columns]` for x, `[0, rows]` for y and `[min, max]` of all cells for
      the values; a limit with fewer than two entries fails when indexed. */
  function HeatmapLimits(a: Array2, xLim: seq<real>, yLim: seq<real>, zLim: seq<real>): (r: Result<Limits, PyError>)
    ensures r.Err? <==>
      (zLim == [] && (a.shape0 == 0 || a.shape1 == 0)) ||
      (xLim != [] && !Indexable(xLim)) || (yLim != [] && !Indexable(yLim)) || (zLim != [] && !Indexable(zLim))
    ensures r.Err? ==> r.error == (if zLim == [] && (a.shape0 == 0 || a.shape1 == 0) then ValueError else IndexError)
    ensures r.Ok? ==> Indexable(r.value.x) && Indexable(r.value.y) && Indexable(r.value.z)
    ensures r.Ok? ==> r.value.x == (if xLim == [] then [0.0, a.shape1 as real] else xLim)
    ensures r.Ok? ==> r.value.y == (if yLim == [] then [0.0, a.shape0 as real] else yLim)
    ensures r.Ok? && zLim != [] ==> r.value.z == zLim
    ensures r.Ok? && zLim == [] ==> Least(r.value.z[0], Elements(a)) && Greatest(r.value.z[1], Elements(a))
  {
    var x := if xLim == [] then [0.0, a.shape1 as real] else xLim;
    var y := if yLim == [] then [0.0, a.shape0 as real] else yLim;
    var z :- if zLim == [] then Extent(Elements(a)) else Ok(zLim);
    if !Indexable(z) || !Indexable(x) || !Indexable(y) then Err(IndexError)
    else Ok(Limits(x, y, z))
  }

  /** `toScatter`'s ranges.  x and y default to the extent of columns 0 and 1;
      the data range is always the extent of column 2.  The value range `zLim`
      is computed over the whole array when empty but never used, so it only
      matters by raising on an empty array. */
  function ScatterLimits(a: Array2, xLim: seq<real>, yLim: seq<real>, zLim: seq<real>): (r: Result<Limits, PyError>)
    ensures r.Err? <==>
      a.shape1 < 3 || a.shape0 == 0 || (xLim != [] && !Indexable(xLim)) || (yLim != [] && !Indexable(yLim))
    ensures r.Ok? ==> a.shape0 > 0 && a.shape1 > 2
    ensures r.Ok? ==> Indexable(r.value.x) && Indexable(r.value.y) && Indexable(r.value.z)
    ensures r.Ok? && xLim != [] ==> r.value.x == xLim
    ensures r.Ok? && xLim == [] ==> Least(r.value.x[0], Column(a, 0)) && Greatest(r.value.x[1], Column(a, 0))
    ensures r.Ok? && yLim != [] ==> r.value.y == yLim
    ensures r.Ok? && yLim == [] ==> Least(r.value.y[0], Column(a, 1)) && Greatest(r.value.y[1], Column(a, 1))
    ensures r.Ok? ==> Least(r.value.z[0], Column(a, 2)) && Greatest(r.value.z[1], Column(a, 2))
  {
    var x :- if xLim == [] then (var c :- NpColumn(a, 0); Extent(c)) else Ok(xLim);
    var y :- if yLim == [] then (var c :- NpColumn(a, 1); Extent(c)) else Ok(yLim);
    var zUnused :- if zLim == [] then Extent(Elements(a)) else Ok(zLim);
    var c2 :- NpColumn(a, 2);
    var data :- Extent(c2);
    if !Indexable(x) || !Indexable(y) then Err(IndexError)
    else Ok(Limits(x, y, data))
  }

  /** Which exception `toScatter`'s ranges raise: the first failing step in the
      source's order, where a missing column raises `IndexError` and a reduction
      over no rows raises `ValueError`. */
  lemma ScatterLimitsErrors(a: Array2, xLim: seq<real>, yLim: seq<real>, zLim: seq<real>)
    ensures var r := ScatterLimits(a, xLim, yLim, zLim);
      && (a.shape1 == 0 ==>
            r.Err? && (r.error == ValueError <==> xLim != [] && yLim != [] && zLim == []))
      && (a.shape0 == 0 && 0 < a.shape1 < 3 ==>
            r.Err? && (r.error == IndexError <==>
                       xLim != [] && ((yLim == [] && a.shape1 == 1) || (yLim != [] && zLim != []))))
      && (a.shape0 > 0 && 0 < a.shape1 < 3 ==> r == Err(IndexError))
      && (a.shape0 == 0 && a.shape1 >= 3 ==> r == Err(ValueError))
      && (a.shape0 > 0 && a.shape1 >= 3 && r.Err? ==> r.error == IndexError)
  {
  }

  /** `texPath`, or `imgPath` when it is `None`. */
  function TexPath(imgPath: string, texPath: Option<string>): (r: string)
    ensures texPath == Some(r) || (texPath.None? && r == imgPath)
  {
    if texPath.None? then imgPath else texPath.value
  }

  /** `dctPlotInfo` after `dctPlotInfo.update(themeArgs)`. */
  function Merged(l: Limits, imgPath: string, texPath: Option<string>, xLabel: string, yLabel: string,
                  themeArgs: map<string, Value>, colormap: string): map<string, Value>
    requires Indexable(l.x) && Indexable(l.y) && Indexable(l.z)
  {
    Update(PlotInfo(l.z, l.x, l.y, xLabel, yLabel, imgPath, TexPath(imgPath, texPath), colormap), themeArgs)
  }

  /** After the merge, a field the caller passes in `themeArgs` has the caller's
      value and every other field keeps the value the driver computed. */
  lemma MergedFields(l: Limits, imgPath: string, texPath: Option<string>, xLabel: string, yLabel: string,
                     themeArgs: map<string, Value>, colormap: string)
    requires Indexable(l.x) && Indexable(l.y) && Indexable(l.z)
    ensures var d := Merged(l, imgPath, texPath, xLabel, yLabel, themeArgs, colormap);
      && d.Keys == InfoKeys + themeArgs.Keys
      && (forall k :: k in themeArgs ==> d[k] == themeArgs[k])
      && ("dataMin" !in themeArgs ==> d["dataMin"] == Num(l.z[0]))
      && ("dataMax" !in themeArgs ==> d["dataMax"] == Num(l.z[1]))
      && ("xMin" !in themeArgs ==> d["xMin"] == Num(l.x[0]))
      && ("xMax" !in themeArgs ==> d["xMax"] == Num(l.x[1]))
      && ("yMin" !in themeArgs ==> d["yMin"] == Num(l.y[0]))
      && ("yMax" !in themeArgs ==> d["yMax"] == Num(l.y[1]))
      && ("xLabel" !in themeArgs ==> d["xLabel"] == Text(xLabel))
      && ("yLabel" !in themeArgs ==> d["yLabel"] == Text(yLabel))
      && ("savePath" !in themeArgs ==> d["savePath"] == Text(imgPath))
      && ("imagePath" !in themeArgs ==> d["imagePath"] == Text(if texPath.None? then imgPath else texPath.value))
      && ("colormap" !in themeArgs ==> d["colormap"] == Text(colormap))
  {
  }

  /** The dictionary `toHeatmap` composes with, for the colormap declaration `colormap`. */
  function HeatmapInfo(a: Array2, imgPath: string, texPath: Option<string>,
                       xLim: seq<real>, yLim: seq<real>, zLim: seq<real>,
                       xLabel: string, yLabel: string,
                       themeArgs: map<string, Value>, colormap: string): Result<map<string, Value>, PyError>
  {
    var l :- HeatmapLimits(a, xLim, yLim, zLim);
    Ok(Merged(l, imgPath, texPath, xLabel, yLabel, themeArgs, colormap))
  }

  /** The dictionary `toScatter` composes with, for the colormap declaration `colormap`. */
  function ScatterInfo(a: Array2, imgPath: string, texPath: Option<string>,
                       xLim: seq<real>, yLim: seq<real>, zLim: seq<real>,
                       xLabel: string, yLabel: string,
                       themeArgs: map<string, Value>, colormap: string): Result<map<string, Value>, PyError>
  {
    var l :- ScatterLimits(a, xLim, yLim, zLim);
    Ok(Merged(l, imgPath, texPath, xLabel, yLabel, themeArgs, colormap))
  }

  /** Default heatmap axes: with no limits given, x spans the columns and y the
      rows, and the data range is the least and greatest cell. */
  lemma HeatmapDefaults(a: Array2, imgPath: string, texPath: Option<string>,
                        xLabel: string, yLabel: string, colormap: string)
    requires a.shape0 > 0 && a.shape1 > 0
    ensures var r := HeatmapInfo(a, imgPath, texPath, [], [], [], xLabel, yLabel, map[], colormap);
      && r.Ok?
      && r.value["xMin"] == Num(0.0) && r.value["xMax"] == Num(a.shape1 as real)
      && r.value["yMin"] == Num(0.0) && r.value["yMax"] == Num(a.shape0 as real)
      && r.value["dataMin"].Num? && Least(r.value["dataMin"].x, Elements(a))
      && r.value["dataMax"].Num? && Greatest(r.value["dataMax"].x, Elements(a))
      && r.value["imagePath"] == Text(TexPath(imgPath, texPath))
  {
    var l := HeatmapLimits(a, [], [], []).value;
    MergedFields(l, imgPath, texPath, xLabel, yLabel, map[], colormap);
  }

  /** Limits the caller gives reach the heatmap dictionary unchanged. */
  lemma HeatmapGivenLimits(a: Array2, imgPath: string, texPath: Option<string>,
                           xLim: seq<real>, yLim: seq<real>, zLim: seq<real>,
                           xLabel: string, yLabel: string, colormap: string)
    requires Indexable(xLim) && Indexable(yLim) && Indexable(zLim)
    ensures var r := HeatmapInfo(a, imgPath, texPath, xLim, yLim, zLim, xLabel, yLabel, map[], colormap);
      && r.Ok?
      && r.value["xMin"] == Num(xLim[0]) && r.value["xMax"] == Num(xLim[1])
      && r.value["yMin"] == Num(yLim[0]) && r.value["yMax"] == Num(yLim[1])
      && r.value["dataMin"] == Num(zLim[0]) && r.value["dataMax"] == Num(zLim[1])
  {
    var l := HeatmapLimits(a, xLim, yLim, zLim).value;
    MergedFields(l, imgPath, texPath, xLabel, yLabel, map[], colormap);
  }

  /** The scatter data range is that of column 2, whatever `zLim` says, and x
      and y default to the extents of columns 0 and 1. */
  lemma ScatterDefaults(a: Array2, imgPath: string, texPath: Option<string>, zLim: seq<real>,
                        xLabel: string, yLabel: string, colormap: string)
    requires a.shape0 > 0 && a.shape1 >= 3
    ensures var r := ScatterInfo(a, imgPath, texPath, [], [], zLim, xLabel, yLabel, map[], colormap);
      && r.Ok?
      && r.value["xMin"].Num? && Least(r.value["xMin"].x, Column(a, 0))
      && r.value["xMax"].Num? && Greatest(r.value["xMax"].x, Column(a, 0))
      && r.value["yMin"].Num? && Least(r.value["yMin"].x, Column(a, 1))
      && r.value["yMax"].Num? && Greatest(r.value["yMax"].x, Column(a, 1))
      && r.value["dataMin"].Num? && Least(r.value["dataMin"].x, Column(a, 2))
      && r.value["dataMax"].Num? && Greatest(r.value["dataMax"].x, Column(a, 2))
  {
    var l := ScatterLimits(a, [], [], zLim).value;
    MergedFields(l, imgPath, texPath, xLabel, yLabel, map[], colormap);
  }

  /** Once the scatter dictionary can be built for one value range, it is the
      same for every other: `zLim` has no effect on what is composed. */
  lemma ScatterIgnoresZLim(a: Array2, imgPath: string, texPath: Option<string>,
                           xLim: seq<real>, yLim: seq<real>, zLim1: seq<real>, zLim2: seq<real>,
                           xLabel: string, yLabel: string, themeArgs: map<string, Value>, colormap: string)
    requires ScatterInfo(a, imgPath, texPath, xLim, yLim, zLim1, xLabel, yLabel, themeArgs, colormap).Ok?
    ensures ScatterInfo(a, imgPath, texPath, xLim, yLim, zLim2, xLabel, yLabel, themeArgs, colormap) ==
            ScatterInfo(a, imgPath, texPath, xLim, yLim, zLim1, xLabel, yLabel, themeArgs, colormap)
  {
    assert |Elements(a)| > 0;
  }

  /** The driver's result, given whether the image file was written. */
  function Finish(info: Result<map<string, Value>, PyError>, imageWritten: bool): Result<Output, PyError>
  {
    match info
    case Err(e) => Err(e)
    case Ok(d) => Ok(if imageWritten then Composed(d) else ImageNotWritten)
  }

  /** The first half of `toHeatmap`: empty limits replaced by their defaults,
      in the order the source fills them in.  It computes what `HeatmapLimits`
      specifies, step by step as the driver does; the drivers call it instead
      of the function so that their own proofs stay small. */
  method HeatmapRanges(a: Array2, xLim: seq<real>, yLim: seq<real>, zLim: seq<real>)
    returns (r: Result<Limits, PyError>)
    ensures r == HeatmapLimits(a, xLim, yLim, zLim)
  {
    var x, y, z := xLim, yLim, zLim;
    if x == [] {
      x := [0.0, a.shape1 as real];
    }
    if y == [] {
      y := [0.0, a.shape0 as real];
    }
    if z == [] {
      var e := Extent(Elements(a));
      if e.Err? {
        return Err(e.error);
      }
      z := e.value;
    }
    if !Indexable(z) || !Indexable(x) || !Indexable(y) {
      return Err(IndexError);
    }
    r := Ok(Limits(x, y, z));
  }

  /** The first half of `toScatter`: empty x/y limits replaced by the extents
      of columns 0 and 1, the unused value range, and the extent of column 2.
      It computes what `ScatterLimits` specifies, step by step as the driver
      does; the drivers call it instead of the function so that their own
      proofs stay small. */
  method ScatterRanges(a: Array2, xLim: seq<real>, yLim: seq<real>, zLim: seq<real>)
    returns (r: Result<Limits, PyError>)
    ensures r == ScatterLimits(a, xLim, yLim, zLim)
  {
    var x, y := xLim, yLim;
    if x == [] {
      var c :- NpColumn(a, 0);
      x :- Extent(c);
    }
    if y == [] {
      var c :- NpColumn(a, 1);
      y :- Extent(c);
    }
    if zLim == [] {
      var zUnused :- Extent(Elements(a));
    }
    var c2 :- NpColumn(a, 2);
    var data :- Extent(c2);
    if !Indexable(x) || !Indexable(y) {
      return Err(IndexError);
    }
    r := Ok(Limits(x, y, data));
  }

  /** The second half of both drivers: `dctPlotInfo` with the map's declaration,
      the caller's fields merged in, and `_compose` unless the image could not
      be written. */
  method ComposeInfo(l: Limits, imgPath: string, cm: ColorMaps.ColorMap, texPath: Option<string>,
                 xLabel: string, yLabel: string, themeArgs: map<string, Value>,
                 fmt: real -> string, imageWritten: bool) returns (o: Output)
    requires cm.Valid()
    requires Indexable(l.x) && Indexable(l.y) && Indexable(l.z)
    ensures var d := Merged(l, imgPath, texPath, xLabel, yLabel, themeArgs,
                            Pgf.Format(cm.name, ColorMaps.Samples(cm.obj), fmt));
      o == if imageWritten then Composed(d) else ImageNotWritten
  {
    var tex := TexPath(imgPath, texPath);
    var pgf := cm.ToPGF(fmt);
    var dctPlotInfo := PlotInfo(l.z, l.x, l.y, xLabel, yLabel, imgPath, tex, pgf);
    dctPlotInfo := dctPlotInfo + themeArgs;
    o := if imageWritten then Composed(dctPlotInfo) else ImageNotWritten;
  }

  /** `toHeatmap`: the defaults, the dictionary, the caller's fields, and then
      `_compose` unless the image could not be written. */
  method ToHeatmap(a: Array2, imgPath: string, cm: ColorMaps.ColorMap, texPath: Option<string>,
                   xLim: seq<real>, yLim: seq<real>, zLim: seq<real>,
                   xLabel: string, yLabel: string, themeArgs: map<string, Value>,
                   fmt: real -> string, imageWritten: bool) returns (r: Result<Output, PyError>)
    requires cm.Valid()
    ensures r == Finish(HeatmapInfo(a, imgPath, texPath, xLim, yLim, zLim, xLabel, yLabel, themeArgs,
                                    Pgf.Format(cm.name, ColorMaps.Samples(cm.obj), fmt)), imageWritten)
  {
    var l :- HeatmapRanges(a, xLim, yLim, zLim);
    var o := ComposeInfo(l, imgPath, cm, texPath, xLabel, yLabel, themeArgs, fmt, imageWritten);
    r := Ok(o);
  }

  /** `toScatter`: as `toHeatmap`, with the scatter defaults. */
  method ToScatter(a: Array2, imgPath: string, cm: ColorMaps.ColorMap, texPath: Option<string>,
                   xLim: seq<real>, yLim: seq<real>, zLim: seq<real>,
                   xLabel: string, yLabel: string, themeArgs: map<string, Value>,
                   fmt: real -> string, imageWritten: bool) returns (r: Result<Output, PyError>)
    requires cm.Valid()
    ensures r == Finish(ScatterInfo(a, imgPath, texPath, xLim, yLim, zLim, xLabel, yLabel, themeArgs,
                                    Pgf.Format(cm.name, ColorMaps.Samples(cm.obj), fmt)), imageWritten)
  {
    var l :- ScatterRanges(a, xLim, yLim, zLim);
    var o := ComposeInfo(l, imgPath, cm, texPath, xLabel, yLabel, themeArgs, fmt, imageWritten);
    r := Ok(o);
  }
}
