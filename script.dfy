/** The stand-alone script axify.py: the TeX colormap text of a custom map
    (`genCustomColormap`), a map PGFplots already knows (`genPresentColormap`),
    the `maps` table, the arguments `compose` fills the template with, and the
    loop over the input files.

    `%f` and `str` are formatter parameters `fixed` and `show`; files are read
    through a parameter `load` that gives the array stored at a path, if any. */
module Script {
  import opened Wrappers
  import opened Text
  import opened Scale
  import Plot

  /** A number as written in a Python literal: `str(1)` is "1", `str(1.0)` is "1.0". */
  datatype Scalar = Int(i: int) | Float(f: real)

  /** The first half of a `maps` entry, what `imsave` gets as `cmap`: a name
      matplotlib knows, or the arguments of `LinearSegmentedColormap.from_list`. */
  datatype MplMap = Named(name: string) | FromList(name: string, colors: seq<seq<Scalar>>, n: nat)

  datatype ScriptError = ZeroDivisionError | KeyError | NameError | ValueError

  /** `','.join(str(cc) for cc in tt)`. */
  function ComponentText(show: Scalar -> string, tt: seq<Scalar>): string
  {
    Join(",", seq(|tt|, k requires 0 <= k < |tt| => show(tt[k])))
  }

  /** The colour text lists one component per comma-separated field. */
  lemma ComponentFields(show: Scalar -> string, tt: seq<Scalar>)
    requires |tt| >= 1
    requires forall k :: 0 <= k < |tt| ==> ',' !in show(tt[k])
    ensures Count(',', ComponentText(show, tt)) == |tt| - 1
  {
    var parts := seq(|tt|, k requires 0 <= k < |tt| => show(tt[k]));
    assert Count(',', ",") == 1;
    JoinCount(',', ",", parts);
  }

  /** The node for colour `ii` of `numCols`: `rgb(%fpt)=(...)` at position `ii/(numCols-1)`. */
  function Node(fixed: real -> string, show: Scalar -> string, ii: nat, numCols: nat, tt: seq<Scalar>): string
    requires numCols >= 2
  {
    "rgb(" + fixed(Position(ii, numCols)) + "pt)=(" + ComponentText(show, tt) + ")"
  }

  /** One node per colour, in the order of the colours. */
  function Nodes(tplCols: seq<seq<Scalar>>, fixed: real -> string, show: Scalar -> string): seq<string>
    requires |tplCols| != 1
  {
    seq(|tplCols|, ii requires 0 <= ii < |tplCols| => Node(fixed, show, ii, |tplCols|, tplCols[ii]))
  }

  /** The TeX half of `genCustomColormap`.  It takes no name: the declaration is
      always tagged `mymap`.  A single colour divides by zero. */
  function CustomTex(tplCols: seq<seq<Scalar>>, fixed: real -> string, show: Scalar -> string): (r: Result<string, ScriptError>)
    ensures r.Err? <==> |tplCols| == 1
    ensures r.Err? ==> r.error == ZeroDivisionError
  {
    if |tplCols| == 1 then Err(ZeroDivisionError)
    else Ok("colormap={mymap}{" + Join("; ", Nodes(tplCols, fixed, show)) + "}")
  }

  /** `genCustomColormap(tplCols, name)`: builds the node list colour by colour. */
  method GenCustomColormap(tplCols: seq<seq<Scalar>>, name: string, fixed: real -> string, show: Scalar -> string)
    returns (r: Result<(MplMap, string), ScriptError>)
    ensures r.Err? <==> |tplCols| == 1
    ensures r.Err? ==> r.error == ZeroDivisionError
    ensures r.Ok? ==> r.value.0 == FromList(name, tplCols, 50) && Ok(r.value.1) == CustomTex(tplCols, fixed, show)
  {
    var theMap := FromList(name, tplCols, 50);
    var numCols := |tplCols|;
    var tplCols255: seq<string> := [];
    for ii := 0 to numCols
      invariant |tplCols255| == ii
      invariant ii > 0 ==> numCols >= 2
      invariant forall j :: 0 <= j < ii ==> numCols >= 2 && tplCols255[j] == Node(fixed, show, j, numCols, tplCols[j])
    {
      if numCols - 1 == 0 {
        return Err(ZeroDivisionError);
      }
      var tt := tplCols[ii];
      var col := Join(",", seq(|tt|, k requires 0 <= k < |tt| => show(tt[k])));
      tplCols255 := tplCols255 + ["rgb(" + fixed(Position(ii, numCols)) + "pt)=(" + col + ")"];
    }
    assert numCols != 1 ==> tplCols255 == Nodes(tplCols, fixed, show);
    var theTex := "colormap={mymap}{" + Join("; ", tplCols255) + "}";
    r := Ok((theMap, theTex));
  }

  /** Exactly one node per colour: with `n >= 2` colours the declaration holds
      `n - 1` node separators `"; "`, provided the number texts hold no `;`. */
  lemma CustomTexNodeCount(tplCols: seq<seq<Scalar>>, fixed: real -> string, show: Scalar -> string)
    requires |tplCols| >= 2
    requires forall x :: ';' !in fixed(x)
    requires forall c :: ';' !in show(c)
    ensures CustomTex(tplCols, fixed, show).Ok?
    ensures Count(';', CustomTex(tplCols, fixed, show).value) == |tplCols| - 1
  {
    var nodes := Nodes(tplCols, fixed, show);
    forall i | 0 <= i < |nodes|
      ensures ';' !in nodes[i]
    {
      var tt := tplCols[i];
      JoinAvoids(';', ",", seq(|tt|, k requires 0 <= k < |tt| => show(tt[k])));
    }
    assert Count(';', "; ") == 1;
    JoinCount(';', "; ", nodes);
    var head := "colormap={mymap}{";
    CountAbsent(';', head);
    CountAbsent(';', "}");
    CountAppend(';', head, Join("; ", nodes));
    CountAppend(';', head + Join("; ", nodes), "}");
  }

  /** The name a `colormap/NAME` reference points at. */
  function PresentName(tex: string): Option<string>
  {
    StripPrefix(tex, "colormap/")
  }

  /** `genPresentColormap(name)`: the map's name for matplotlib and `colormap/NAME`
      for PGFplots; the PGFplots reference names the same map as the matplotlib half. */
  function GenPresentColormap(name: string): (r: (MplMap, string))
    ensures r.0 == Named(name)
    ensures PresentName(r.1) == Some(name)
  {
    StripPrefixOf("colormap/", name);
    (Named(name), "colormap/" + name)
  }

  /** The colours of `tui`: a red, white, and a blue. */
  const TuiColors: seq<seq<Scalar>> :=
    [[Float(0.75), Float(0.12), Float(0.06)], [Int(1), Int(1), Int(1)], [Int(0), Float(0.21), Float(0.39)]]

  function ScalarValue(c: Scalar): real
  {
    match c
    case Int(i) => i as real
    case Float(f) => f
  }

  /** The `maps` table. */
  function Maps(fixed: real -> string, show: Scalar -> string): (m: map<string, (MplMap, string)>)
    ensures m.Keys == {"hot", "jet", "tui"}
    ensures forall k :: k in m && k != "tui" ==> m[k] == GenPresentColormap(k)
    ensures m["tui"].0 == FromList("tui", TuiColors, 50) && Ok(m["tui"].1) == CustomTex(TuiColors, fixed, show)
  {
    map["hot" := GenPresentColormap("hot"),
        "jet" := GenPresentColormap("jet"),
        "tui" := (FromList("tui", TuiColors, 50), CustomTex(TuiColors, fixed, show).value)]
  }

  /** `tui` runs from a red through white to a blue. */
  lemma TuiPalette()
    ensures |TuiColors| == 3 && forall i :: 0 <= i < 3 ==> |TuiColors[i]| == 3
    ensures var red := TuiColors[0];
      ScalarValue(red[0]) > ScalarValue(red[1]) && ScalarValue(red[0]) > ScalarValue(red[2])
    ensures forall k :: 0 <= k < 3 ==> ScalarValue(TuiColors[1][k]) == 1.0
    ensures var blue := TuiColors[2];
      ScalarValue(blue[2]) > ScalarValue(blue[0]) && ScalarValue(blue[2]) > ScalarValue(blue[1])
  {
  }

  /** The node of a three-component colour spells out its three components. */
  lemma NodeOfTriple(fixed: real -> string, show: Scalar -> string, ii: nat, numCols: nat, tt: seq<Scalar>)
    requires numCols >= 2 && |tt| == 3
    ensures Node(fixed, show, ii, numCols, tt) ==
      "rgb(" + fixed(Position(ii, numCols)) + "pt)=(" + show(tt[0]) + "," + show(tt[1]) + "," + show(tt[2]) + ")"
  {
    var parts := seq(|tt|, k requires 0 <= k < |tt| => show(tt[k]));
    assert parts[..2][..1] == [parts[0]];
    assert Join(",", parts[..2]) == parts[0] + "," + parts[1];
  }

  /** The PGFplots text of `tui` puts its three colours at positions 0, 0.5
      and 1, under the fixed name `mymap`. */
  lemma TuiTex(fixed: real -> string, show: Scalar -> string)
    ensures Maps(fixed, show)["tui"].1 ==
      "colormap={mymap}{" + (
        ("rgb(" + fixed(0.0) + "pt)=(" + show(Float(0.75)) + "," + show(Float(0.12)) + "," + show(Float(0.06)) + ")")
        + "; " + ("rgb(" + fixed(0.5) + "pt)=(" + show(Int(1)) + "," + show(Int(1)) + "," + show(Int(1)) + ")")
        + "; " + ("rgb(" + fixed(1.0) + "pt)=(" + show(Int(0)) + "," + show(Float(0.21)) + "," + show(Float(0.39)) + ")")
      ) + "}"
  {
    var nodes := Nodes(TuiColors, fixed, show);
    var n0 := "rgb(" + fixed(0.0) + "pt)=(" + show(Float(0.75)) + "," + show(Float(0.12)) + "," + show(Float(0.06)) + ")";
    var n1 := "rgb(" + fixed(0.5) + "pt)=(" + show(Int(1)) + "," + show(Int(1)) + "," + show(Int(1)) + ")";
    var n2 := "rgb(" + fixed(1.0) + "pt)=(" + show(Int(0)) + "," + show(Float(0.21)) + "," + show(Float(0.39)) + ")";
    assert nodes[0] == n0 by {
      assert Position(0, 3) == 0.0;
      NodeOfTriple(fixed, show, 0, 3, TuiColors[0]);
    }
    assert nodes[1] == n1 by {
      assert Position(1, 3) == 0.5;
      NodeOfTriple(fixed, show, 1, 3, TuiColors[1]);
    }
    assert nodes[2] == n2 by {
      assert Position(2, 3) == 1.0;
      NodeOfTriple(fixed, show, 2, 3, TuiColors[2]);
    }
    assert Join("; ", nodes) == n0 + "; " + n1 + "; " + n2 by {
      assert nodes[..2][..1] == [nodes[0]];
      assert Join("; ", nodes[..2]) == nodes[0] + "; " + nodes[1];
    }
    assert Maps(fixed, show)["tui"].1 == "colormap={mymap}{" + Join("; ", nodes) + "}";
  }

  /** An argument of the `%` substitution into the template. */
  datatype Arg = FloatArg(x: real) | IntArg(n: int) | StrArg(s: string)

  /** The tuple `compose` substitutes: `(metaMin, metaMax, colorMap, *size, path)`. */
  function ComposeArgs(metaMin: real, metaMax: real, size: (nat, nat), colorMap: string, path: string): (r: seq<Arg>)
    ensures |r| == |SimpleSlots|
  {
    [FloatArg(metaMin), FloatArg(metaMax), StrArg(colorMap), IntArg(size.0), IntArg(size.1), StrArg(path)]
  }

  /** The conversions of the `simple` template, in order, by what they set. */
  const SimpleSlots: seq<string> := ["point meta min", "point meta max", "colormap", "xmax", "ymax", "graphics"]

  /** `themes`. */
  const Themes: map<string, seq<string>> := map["simple" := SimpleSlots]

  /** Positional `%` substitution: conversion `i` receives argument `i`. */
  function Bind(slots: seq<string>, args: seq<Arg>): (b: map<string, Arg>)
    requires |slots| == |args|
    requires forall i, j :: 0 <= i < j < |slots| ==> slots[i] != slots[j]
    ensures b.Keys == set i | 0 <= i < |slots| :: slots[i]
    ensures forall i :: 0 <= i < |slots| ==> b[slots[i]] == args[i]
  {
    map i | 0 <= i < |slots| :: slots[i] := args[i]
  }

  /** Which argument each conversion of the `simple` theme receives. */
  lemma SimpleBinding(args: seq<Arg>)
    requires |args| == |SimpleSlots|
    ensures var b := Bind(SimpleSlots, args);
      && "point meta min" in b && b["point meta min"] == args[0]
      && "point meta max" in b && b["point meta max"] == args[1]
      && "colormap" in b && b["colormap"] == args[2]
      && "xmax" in b && b["xmax"] == args[3]
      && "ymax" in b && b["ymax"] == args[4]
      && "graphics" in b && b["graphics"] == args[5]
  {
    assert SimpleSlots[0] == "point meta min" && SimpleSlots[1] == "point meta max";
    assert SimpleSlots[2] == "colormap" && SimpleSlots[3] == "xmax";
    assert SimpleSlots[4] == "ymax" && SimpleSlots[5] == "graphics";
  }

  /** Substituted into `simple`, the meta range fills `point meta min`/`max`,
      the map's TeX text `colormap`, the two entries of `size` `xmax` and
      `ymax`, and the path `graphics`. */
  lemma ComposeBinding(metaMin: real, metaMax: real, size: (nat, nat), colorMap: string, path: string)
    ensures var b := Bind(SimpleSlots, ComposeArgs(metaMin, metaMax, size, colorMap, path));
      && b.Keys == (set i | 0 <= i < |SimpleSlots| :: SimpleSlots[i])
      && "point meta min" in b && b["point meta min"] == FloatArg(metaMin)
      && "point meta max" in b && b["point meta max"] == FloatArg(metaMax)
      && "colormap" in b && b["colormap"] == StrArg(colorMap)
      && "xmax" in b && b["xmax"] == IntArg(size.0)
      && "ymax" in b && b["ymax"] == IntArg(size.1)
      && "graphics" in b && b["graphics"] == StrArg(path)
  {
    SimpleBinding(ComposeArgs(metaMin, metaMax, size, colorMap, path));
  }

  /** `compose`: the `themes[theme]` template with the arguments substituted,
      as the binding of each conversion to its argument; `KeyError` for an
      unknown theme. */
  function Compose(theme: string, metaMin: real, metaMax: real, size: (nat, nat), colorMap: string, path: string)
    : (r: Result<map<string, Arg>, ScriptError>)
    ensures r.Err? <==> theme !in Themes
    ensures r.Err? ==> r.error == KeyError
  {
    if theme !in Themes then Err(KeyError)
    else
      assert Themes[theme] == SimpleSlots;
      Ok(Bind(Themes[theme], ComposeArgs(metaMin, metaMax, size, colorMap, path)))
  }

  /** The script's table `maps`, from a `maps` key to the colormap handed to
      `imsave` and the TeX text handed to `compose`; `Maps` is its value in
      axify.py. */
  type MapTable = map<string, (MplMap, string)>

  /** What the template is filled with for one input file: the array `data`
      stored at `path` (`None` when there is no such file), the key `colorMap`
      of the table `maps` and the `themes` key `theme`.  A missing file
      evaluates the undefined name `StandardError`; unknown keys raise
      `KeyError`; `np.min` of an empty array raises `ValueError`.  `imsave`
      sees the array before `np.min` does; its own failures are not modelled,
      so an empty array gets the exception `np.min` would raise. */
  function Plan(data: Option<Plot.Array2>, maps: MapTable, colorMap: string, theme: string, path: string)
    : (r: Result<map<string, Arg>, ScriptError>)
    ensures r.Err? <==>
      data.None? || colorMap !in maps || data.value.shape0 == 0 || data.value.shape1 == 0 || theme !in Themes
  {
    if data.None? then Err(NameError)
    else if colorMap !in maps then Err(KeyError)
    else
      var a := data.value;
      var size := (a.shape1, a.shape0);
      var cells := Plot.Elements(a);
      if |cells| == 0 then Err(ValueError)
      else Compose(theme, Plot.Min(cells), Plot.Max(cells), size, maps[colorMap].1, path)
  }

  /** What the template receives for a file that loads: exactly the six
      conversions of `simple`, with xmax the column count and ymax the row
      count (`size` is swapped), the least and greatest cell of the whole
      array as the meta range, then the map's TeX text and the path. */
  lemma PlanValues(data: Option<Plot.Array2>, maps: MapTable, colorMap: string, theme: string, path: string)
    ensures var r := Plan(data, maps, colorMap, theme, path);
      r.Ok? ==>
        && theme == "simple" && r.value.Keys == (set i | 0 <= i < |SimpleSlots| :: SimpleSlots[i])
        && "xmax" in r.value && r.value["xmax"] == IntArg(data.value.shape1)
        && "ymax" in r.value && r.value["ymax"] == IntArg(data.value.shape0)
        && "point meta min" in r.value && r.value["point meta min"].FloatArg?
        && Plot.Least(r.value["point meta min"].x, Plot.Elements(data.value))
        && "point meta max" in r.value && r.value["point meta max"].FloatArg?
        && Plot.Greatest(r.value["point meta max"].x, Plot.Elements(data.value))
        && colorMap in maps && "colormap" in r.value && r.value["colormap"] == StrArg(maps[colorMap].1)
        && "graphics" in r.value && r.value["graphics"] == StrArg(path)
  {
    if data.Some? && colorMap in maps && theme in Themes {
      var cells := Plot.Elements(data.value);
      if |cells| > 0 {
        ComposeBinding(Plot.Min(cells), Plot.Max(cells), (data.value.shape1, data.value.shape0), maps[colorMap].1, path);
      }
    }
  }

  /** Which exception the script raises for one input file, in the order the
      source meets them: the missing file (`NameError` for `StandardError`),
      the unknown map (`KeyError` from `maps`), the empty array (`ValueError`
      from `np.min`; `imsave`, which is reached first, is not modelled), the
      unknown theme (`KeyError` from `themes`). */
  lemma PlanErrors(data: Option<Plot.Array2>, maps: MapTable, colorMap: string, theme: string, path: string)
    ensures var r := Plan(data, maps, colorMap, theme, path);
      && (data.None? ==> r == Err(NameError))
      && (data.Some? && colorMap !in maps ==> r == Err(KeyError))
      && (data.Some? && colorMap in maps && (data.value.shape0 == 0 || data.value.shape1 == 0) ==>
            r == Err(ValueError))
      && (data.Some? && colorMap in maps && data.value.shape0 > 0 && data.value.shape1 > 0 ==>
            (r.Err? <==> theme !in Themes) && (r.Err? ==> r.error == KeyError))
  {
  }

  /** With the script's own table, the `colormap` conversion receives the
      PGFplots reference for `hot` and `jet` and the custom declaration for `tui`. */
  lemma PlanColorMap(data: Option<Plot.Array2>, colorMap: string, theme: string, path: string,
                     fixed: real -> string, show: Scalar -> string)
    ensures var r := Plan(data, Maps(fixed, show), colorMap, theme, path);
      r.Ok? ==>
        && "colormap" in r.value
        && (colorMap == "hot" || colorMap == "jet" ==> r.value["colormap"] == StrArg("colormap/" + colorMap))
        && (colorMap == "tui" ==> r.value["colormap"] == StrArg(CustomTex(TuiColors, fixed, show).value))
  {
    PlanValues(data, Maps(fixed, show), colorMap, theme, path);
  }

  /** The script's loop over the input paths: each file's template binding in
      turn, stopping at the first file that raises. */
  method Run(paths: seq<string>, load: string -> Option<Plot.Array2>, maps: MapTable, colorMap: string, theme: string)
    returns (written: seq<map<string, Arg>>, failure: Option<ScriptError>)
    ensures failure.None? ==> |written| == |paths|
    ensures failure.Some? ==>
      |written| < |paths| && Plan(load(paths[|written|]), maps, colorMap, theme, paths[|written|]) == Err(failure.value)
    ensures forall i :: 0 <= i < |written| ==>
      Plan(load(paths[i]), maps, colorMap, theme, paths[i]) == Ok(written[i])
  {
    written, failure := [], None;
    for i := 0 to |paths|
      invariant |written| == i
      invariant forall j :: 0 <= j < i ==> Plan(load(paths[j]), maps, colorMap, theme, paths[j]) == Ok(written[j])
    {
      var r := Plan(load(paths[i]), maps, colorMap, theme, paths[i]);
      if r.Err? {
        failure := Some(r.error);
        return;
      }
      written := written + [r.value];
    }
  }
}
