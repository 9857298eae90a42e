/** `ColorMap` of axify/axify.py: resolving a map by name, first in a colorfy
    workspace and then among matplotlib's own maps, building the segment table
    for a workspace map, sampling the map at 100 positions, and writing it as a
    PGFplots declaration.

    matplotlib is not modelled: what the class needs of it is given as an `Mpl`
    value (the names `plt.colormaps()` reports, the colour function of each of
    those maps, and the colour function matplotlib builds from a segment
    table).  A colour function maps a position on [0, 1] to the first three
    channels of `ScalarMappable.to_rgba` with the [0, 1] normalisation. */
module ColorMaps {
  import opened Wrappers
  import opened Scale
  import Pgf

  /** A colour map of a colorfy workspace: its name, the `tplDef` of each of its
      colours and its positions. */
  datatype WorkspaceMap = WorkspaceMap(name: string, colors: seq<Rgb>, positions: seq<real>)

  /** One row `[pos, c, c]` of a matplotlib segment table. */
  datatype Segment = Segment(x: real, below: real, above: real)

  /** The dictionary `cdct` with its keys 'red', 'green' and 'blue'. */
  datatype SegmentData = SegmentData(red: seq<Segment>, green: seq<Segment>, blue: seq<Segment>)

  datatype Mpl = Mpl(
    colormaps: set<string>,
    builtin: string -> (real -> Rgb),
    fromSegments: SegmentData -> (real -> Rgb))

  /** `NotImplementedError` for a name found nowhere; `ValueError` when
      matplotlib rejects a workspace map's segment table. */
  datatype ColorMapError = NotImplementedError | ValueError

  /** `num` in `_sample`. */
  const SampleCount: nat := 100

  /** The index of the last workspace map called `name`: the search loop does
      not stop at a match, so a later match overwrites an earlier one. */
  function LastMatch(ws: seq<WorkspaceMap>, name: string): (r: Option<nat>)
    ensures r.Some? ==> r.value < |ws| && ws[r.value].name == name
    ensures r.Some? ==> forall j :: r.value < j < |ws| ==> ws[j].name != name
    ensures r.None? ==> forall j :: 0 <= j < |ws| ==> ws[j].name != name
  {
    if |ws| == 0 then None
    else if ws[|ws| - 1].name == name then Some(|ws| - 1)
    else LastMatch(ws[..|ws| - 1], name)
  }

  /** Where the map named `name` is taken from. */
  datatype Source = FromWorkspace(map_: WorkspaceMap) | Builtin(name: string)

  /** The outcome of `ColorMap(name, colorfy=...)`; `ws` is `None` when no
      workspace is given.  A workspace match wins over a matplotlib map of the
      same name; a name found in neither raises `NotImplementedError`. */
  function Resolve(name: string, ws: Option<seq<WorkspaceMap>>, colormaps: set<string>): (r: Result<Source, ColorMapError>)
    ensures r.Err? <==>
      name !in colormaps && (ws.Some? ==> forall j :: 0 <= j < |ws.value| ==> ws.value[j].name != name)
    ensures r.Ok? && r.value.FromWorkspace? ==>
      ws.Some? && r.value.map_.name == name &&
      exists k :: 0 <= k < |ws.value| && ws.value[k] == r.value.map_ &&
        forall j :: k < j < |ws.value| ==> ws.value[j].name != name
    ensures r.Ok? && r.value.Builtin? ==>
      r.value.name == name && name in colormaps &&
      (ws.Some? ==> forall j :: 0 <= j < |ws.value| ==> ws.value[j].name != name)
  {
    var hit := if ws.Some? then LastMatch(ws.value, name) else None;
    if hit.Some? then Ok(FromWorkspace(ws.value[hit.value]))
    else if name in colormaps then Ok(Builtin(name))
    else Err(NotImplementedError)
  }

  /** `cdct`: one `[pos, c_k, c_k]` row per zipped (colour, position) pair, in
      order, so each channel has as many rows as the shorter of the two lists. */
  function SegmentTable(cols: seq<Rgb>, pos: seq<real>): (d: SegmentData)
    ensures |d.red| == |d.green| == |d.blue| == if |cols| < |pos| then |cols| else |pos|
    ensures forall k :: 0 <= k < |d.red| ==>
      && d.red[k] == Segment(pos[k], cols[k].red, cols[k].red)
      && d.green[k] == Segment(pos[k], cols[k].green, cols[k].green)
      && d.blue[k] == Segment(pos[k], cols[k].blue, cols[k].blue)
  {
    if |cols| == 0 || |pos| == 0 then SegmentData([], [], [])
    else
      var rest := SegmentTable(cols[1..], pos[1..]);
      var d := SegmentData(
        [Segment(pos[0], cols[0].red, cols[0].red)] + rest.red,
        [Segment(pos[0], cols[0].green, cols[0].green)] + rest.green,
        [Segment(pos[0], cols[0].blue, cols[0].blue)] + rest.blue);
      assert forall k :: 1 <= k < |d.red| ==>
        d.red[k] == rest.red[k - 1] && d.green[k] == rest.green[k - 1] && d.blue[k] == rest.blue[k - 1];
      d
  }

  /** The loop over `zip(self._cols, self._pos)` that appends to `cdct`. */
  method BuildSegments(cols: seq<Rgb>, pos: seq<real>) returns (d: SegmentData)
    ensures d == SegmentTable(cols, pos)
  {
    var n := if |cols| < |pos| then |cols| else |pos|;
    d := SegmentData([], [], []);
    for k := 0 to n
      invariant |d.red| == |d.green| == |d.blue| == k
      invariant forall j :: 0 <= j < k ==>
        && d.red[j] == Segment(pos[j], cols[j].red, cols[j].red)
        && d.green[j] == Segment(pos[j], cols[j].green, cols[j].green)
        && d.blue[j] == Segment(pos[j], cols[j].blue, cols[j].blue)
    {
      var cc, pp := cols[k], pos[k];
      d := d.(red := d.red + [Segment(pp, cc.red, cc.red)],
              green := d.green + [Segment(pp, cc.green, cc.green)],
              blue := d.blue + [Segment(pp, cc.blue, cc.blue)]);
    }
    var t := SegmentTable(cols, pos);
    assert d.red == t.red && d.green == t.green && d.blue == t.blue;
  }

  /** matplotlib's check of one channel of a segment table, made when the map
      is first evaluated (in `_sample`): at least one row, the first at x = 0,
      the last at x = 1, and no x smaller than the one before it. */
  predicate ValidChannel(s: seq<Segment>)
  {
    && |s| > 0 && s[0].x == 0.0 && s[|s| - 1].x == 1.0
    && forall k :: 0 < k < |s| ==> s[k - 1].x <= s[k].x
  }

  /** A segment table matplotlib accepts: all three channels pass its check. */
  predicate ValidSegments(d: SegmentData)
  {
    ValidChannel(d.red) && ValidChannel(d.green) && ValidChannel(d.blue)
  }

  /** The positions that survive the `zip` with `n` colours: a table built
      from them is accepted exactly when there is at least one, the first is 0,
      the last is 1, and they never decrease. */
  lemma SegmentTableValid(cols: seq<Rgb>, pos: seq<real>)
    ensures var n := if |cols| < |pos| then |cols| else |pos|;
      ValidSegments(SegmentTable(cols, pos)) <==>
        && n > 0 && pos[0] == 0.0 && pos[n - 1] == 1.0
        && forall k :: 0 < k < n ==> pos[k - 1] <= pos[k]
  {
    var d := SegmentTable(cols, pos);
    ChannelValid(d.red, pos);
    ChannelValid(d.green, pos);
    ChannelValid(d.blue, pos);
  }

  /** A channel whose rows sit at the first positions of `pos` passes the check
      exactly when those positions do. */
  lemma ChannelValid(s: seq<Segment>, pos: seq<real>)
    requires |s| <= |pos| && forall k :: 0 <= k < |s| ==> s[k].x == pos[k]
    ensures ValidChannel(s) <==>
      && |s| > 0 && pos[0] == 0.0 && pos[|s| - 1] == 1.0
      && forall k :: 0 < k < |s| ==> pos[k - 1] <= pos[k]
  {
  }

  /** Every workspace map called `name` is met by the search loop and sampled
      at once, so construction gets past the loop only when matplotlib accepts
      the segment table of each of them. */
  predicate AllMatchesValid(ws: seq<WorkspaceMap>, name: string)
  {
    forall j :: 0 <= j < |ws| && ws[j].name == name ==> ValidSegments(SegmentTable(ws[j].colors, ws[j].positions))
  }

  /** The search loop's step: one more map keeps the matches valid when it is
      no match or its table is accepted. */
  lemma AllMatchesValidStep(ws: seq<WorkspaceMap>, name: string, i: nat)
    requires i < |ws| && AllMatchesValid(ws[..i], name)
    requires ws[i].name == name ==> ValidSegments(SegmentTable(ws[i].colors, ws[i].positions))
    ensures AllMatchesValid(ws[..i + 1], name)
  {
    assert forall j :: 0 <= j < i ==> ws[..i + 1][j] == ws[..i][j];
  }

  /** A rejected table belongs to a workspace match, so `ValueError` and
      `NotImplementedError` never compete: the name resolves to that workspace. */
  lemma RejectedMatchResolves(ws: seq<WorkspaceMap>, name: string, colormaps: set<string>)
    requires !AllMatchesValid(ws, name)
    ensures Resolve(name, Some(ws), colormaps).Ok?
    ensures Resolve(name, Some(ws), colormaps).value.FromWorkspace?
  {
    var j :| 0 <= j < |ws| && ws[j].name == name && !ValidSegments(SegmentTable(ws[j].colors, ws[j].positions));
    assert LastMatch(ws, name).Some?;
  }

  /** The colours at the sample positions `ii / 99`, in order. */
  function Samples(obj: real -> Rgb): (s: seq<Rgb>)
    ensures |s| == SampleCount
  {
    seq(SampleCount, ii requires 0 <= ii < SampleCount => obj(Position(ii, SampleCount)))
  }

  /** The sample positions start at 0, end at 1 and strictly increase. */
  lemma SamplePositions()
    ensures Position(0, SampleCount) == 0.0
    ensures Position(SampleCount - 1, SampleCount) == 1.0
    ensures forall ii, jj :: 0 <= ii < jj < SampleCount ==> Position(ii, SampleCount) < Position(jj, SampleCount)
  {
    PositionEnds(SampleCount);
    forall ii, jj | 0 <= ii < jj < SampleCount
      ensures Position(ii, SampleCount) < Position(jj, SampleCount)
    {
      PositionIncreasing(ii, jj, SampleCount);
    }
  }

  /** Column `ii` of the 3 x N sample array. */
  function ColumnOf(a: array2<real>, ii: nat): Rgb
    reads a
    requires a.Length0 == 3 && ii < a.Length1
  {
    Rgb(a[0, ii], a[1, ii], a[2, ii])
  }

  /** `a` is the 3 x 100 sampling of the colour function `obj`. */
  ghost predicate SampledFrom(a: array2<real>, obj: real -> Rgb)
    reads a
  {
    && a.Length0 == 3 && a.Length1 == SampleCount
    && forall ii :: 0 <= ii < SampleCount ==> ColumnOf(a, ii) == obj(Position(ii, SampleCount))
  }

  /** `_sample`: fills a fresh 3 x 100 array, column `ii` with the colour at `ii / 99`. */
  method Sample(obj: real -> Rgb) returns (res: array2<real>)
    ensures fresh(res) && SampledFrom(res, obj)
  {
    var num := SampleCount;
    res := new real[3, num];
    for ii := 0 to num
      invariant forall jj :: 0 <= jj < ii ==> ColumnOf(res, jj) == obj(Position(jj, num))
    {
      var c := obj(Position(ii, num));
      res[0, ii], res[1, ii], res[2, ii] := c.red, c.green, c.blue;
    }
  }

  /** Entry `ii` of the declaration is made from column `ii` of the sample array. */
  lemma EntryOfColumn(cm: ColorMap, fmt: real -> string, ii: nat)
    requires cm.Valid() && ii < SampleCount
    ensures Pgf.Entries(Samples(cm.obj), fmt)[ii] ==
      Pgf.Entry(fmt(Position(ii, SampleCount)), fmt(cm.smpl[0, ii]), fmt(cm.smpl[1, ii]), fmt(cm.smpl[2, ii]))
  {
    assert ColumnOf(cm.smpl, ii) == cm.obj(Position(ii, SampleCount));
  }

  /** `cm` is the object `ColorMap.__init__` builds for the map found at `src`. */
  ghost predicate Describes(cm: ColorMap, src: Source, mpl: Mpl)
  {
    match src
    case FromWorkspace(m) =>
      && cm.name == m.name && cm.cols == m.colors && cm.pos == m.positions
      && cm.obj == mpl.fromSegments(SegmentTable(m.colors, m.positions))
    case Builtin(n) =>
      && cm.name == n && cm.cols == [] && cm.pos == []
      && cm.obj == mpl.builtin(n)
  }

  /** One workspace match: `cdct`, the matplotlib map built from it, and its
      sampling, which raises `ValueError` when matplotlib rejects the table. */
  method SampleMatch(m: WorkspaceMap, mpl: Mpl) returns (r: Result<(real -> Rgb, array2<real>), ColorMapError>)
    ensures r.Err? <==> !ValidSegments(SegmentTable(m.colors, m.positions))
    ensures r.Err? ==> r.error == ValueError
    ensures r.Ok? ==>
      && r.value.0 == mpl.fromSegments(SegmentTable(m.colors, m.positions))
      && fresh(r.value.1) && SampledFrom(r.value.1, r.value.0)
  {
    var cdct := BuildSegments(m.colors, m.positions);
    if !ValidSegments(cdct) {
      return Err(ValueError);
    }
    var obj := mpl.fromSegments(cdct);
    var smpl := Sample(obj);
    r := Ok((obj, smpl));
  }

  /** The search loop over `ws.colorMaps`: every map called `name` is sampled
      as it is met and the last one is kept; the first whose table matplotlib
      rejects raises `ValueError`. */
  method SearchWorkspace(maps: seq<WorkspaceMap>, name: string, mpl: Mpl)
    returns (r: Result<Option<(WorkspaceMap, real -> Rgb, array2<real>)>, ColorMapError>)
    ensures r.Err? <==> !AllMatchesValid(maps, name)
    ensures r.Err? ==> r.error == ValueError
    ensures r.Ok? ==> (r.value.None? <==> LastMatch(maps, name).None?)
    ensures r.Ok? && r.value.Some? ==>
      && r.value.value.0 == maps[LastMatch(maps, name).value]
      && r.value.value.1 == mpl.fromSegments(SegmentTable(r.value.value.0.colors, r.value.value.0.positions))
      && fresh(r.value.value.2) && SampledFrom(r.value.value.2, r.value.value.1)
  {
    // the last match so far, with its colour function and sampling
    var hit: Option<(WorkspaceMap, real -> Rgb, array2<real>)> := None;
    for i := 0 to |maps|
      invariant AllMatchesValid(maps[..i], name)
      invariant hit.None? <==> LastMatch(maps[..i], name).None?
      invariant hit.Some? ==>
        && hit.value.0 == maps[LastMatch(maps[..i], name).value]
        && hit.value.1 == mpl.fromSegments(SegmentTable(hit.value.0.colors, hit.value.0.positions))
        && fresh(hit.value.2) && SampledFrom(hit.value.2, hit.value.1)
    {
      assert maps[..i + 1][..i] == maps[..i];
      if maps[i].name == name {
        var sampled := SampleMatch(maps[i], mpl);
        if sampled.Err? {
          assert maps[i].name == name && !ValidSegments(SegmentTable(maps[i].colors, maps[i].positions));
          return Err(ValueError);
        }
        hit := Some((maps[i], sampled.value.0, sampled.value.1));
      }
      AllMatchesValidStep(maps, name, i);
    }
    assert maps[..|maps|] == maps;
    r := Ok(hit);
  }

  /** `ColorMap(name)` or `ColorMap(name, colorfy=...)`: the workspace search,
      sampling each match as it is met, then the matplotlib fallback, then
      `NotImplementedError`.  A match whose segment table matplotlib rejects
      raises `ValueError` from `_sample`. */
  method Create(name: string, ws: Option<seq<WorkspaceMap>>, mpl: Mpl) returns (r: Result<ColorMap, ColorMapError>)
    ensures r.Err? <==> Resolve(name, ws, mpl.colormaps).Err? || (ws.Some? && !AllMatchesValid(ws.value, name))
    ensures r == Err(ValueError) <==> ws.Some? && !AllMatchesValid(ws.value, name)
    ensures r.Ok? ==>
      && fresh(r.value) && fresh(r.value.smpl) && r.value.Valid()
      && Describes(r.value, Resolve(name, ws, mpl.colormaps).value, mpl)
  {
    var hit: Option<(WorkspaceMap, real -> Rgb, array2<real>)> := None;
    if ws.Some? {
      var found := SearchWorkspace(ws.value, name, mpl);
      if found.Err? {
        return Err(ValueError);
      }
      hit := found.value;
    }
    match hit {
      case Some((m, obj, smpl)) =>
        var cm := new ColorMap(m.name, m.colors, m.positions, obj, smpl);
        r := Ok(cm);
      case None =>
        if name in mpl.colormaps {
          var obj := mpl.builtin(name);
          var smpl := Sample(obj);
          var cm := new ColorMap(name, [], [], obj, smpl);
          r := Ok(cm);
        } else {
          r := Err(NotImplementedError);
        }
    }
  }

  class ColorMap {
    const name: string
    const cols: seq<Rgb>
    const pos: seq<real>
    /** The matplotlib colour map, as its colour function. */
    const obj: real -> Rgb
    /** The 3 x 100 sampling of `obj`. */
    const smpl: array2<real>

    ghost predicate Valid()
      reads smpl
    {
      SampledFrom(smpl, obj)
    }

    constructor(name: string, cols: seq<Rgb>, pos: seq<real>, obj: real -> Rgb, smpl: array2<real>)
      requires SampledFrom(smpl, obj)
      ensures this.name == name && this.cols == cols && this.pos == pos
      ensures this.obj == obj && this.smpl == smpl
      ensures Valid()
    {
      this.name, this.cols, this.pos := name, cols, pos;
      this.obj, this.smpl := obj, smpl;
    }

    /** Entry `ii` of the declaration, read from column `ii` of the sample array. */
    function ColumnEntry(fmt: real -> string, ii: nat): (e: Pgf.Entry)
      reads smpl
      requires Valid() && ii < SampleCount
      ensures e == Pgf.Entries(Samples(obj), fmt)[ii]
    {
      EntryOfColumn(this, fmt, ii);
      Pgf.Entry(fmt(Position(ii, SampleCount)), fmt(smpl[0, ii]), fmt(smpl[1, ii]), fmt(smpl[2, ii]))
    }

    /** `toPGF`: the PGFplots declaration of the sampled map, built entry by entry. */
    method ToPGF(fmt: real -> string) returns (res: string)
      requires Valid()
      ensures res == Pgf.Format(name, Samples(obj), fmt)
    {
      ghost var es := Pgf.Entries(Samples(obj), fmt);
      res := Pgf.Header(name);
      for ii := 0 to smpl.Length1
        invariant res == Pgf.Header(name) + Pgf.Concat(es[..ii])
      {
        var e := ColumnEntry(fmt, ii);
        Pgf.ConcatPrefix(es, ii);
        res := res + Pgf.EntryText(e);
      }
      assert es[..SampleCount] == es;
      res := res + "}";
    }
  }
}
