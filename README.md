# axify, modelled in Dafny

axify turns a numpy array into a raster image plus a PGFplots/TikZ snippet
that draws axes and a colour bar around it.  This project models the
deterministic core of that pipeline:

- **Colour maps** (`ColorMap` in axify/axify.py): a map is looked up by name,
  first in an optional colorfy workspace, then among matplotlib's maps, and
  otherwise `NotImplementedError` is raised.  A workspace map's colours and
  positions become a red/green/blue segment table, which matplotlib rejects
  with `ValueError` unless it starts at 0, ends at 1 and never decreases.
  The map is sampled at 100 evenly spaced positions into a 3 x 100 array and
  written out as a PGFplots `colormap={NAME}{...}` declaration (`toPGF`).
- **Plot drivers** (`toHeatmap`, `toScatter`): the default axis and value
  ranges taken from the array, the `dctPlotInfo` dictionary, and the caller's
  `themeArgs` merged over it.
- **The stand-alone script** (axify.py): the TeX text of a custom map
  (`genCustomColormap`), references to maps PGFplots already has
  (`genPresentColormap`), the `maps` table, the positional arguments of the
  `simple` template, and the loop over the input files.

Floats are modelled as `real`.  Number-to-text conversion (`str`, `%f`) is a
formatter parameter.  For the PGF reader, a formatter is only assumed to write
the characters Python's `str` uses for floats.  matplotlib is the value `Mpl`:
its list of map names, the colour function of each built-in map, and the colour
function it builds from a segment table.  A colour function gives the first
three channels of `to_rgba` at a position on [0, 1].  A colorfy workspace is a
sequence of `WorkspaceMap` records.  The script reads files through a `load`
parameter.  Its module-level table `maps` is the parameter `maps` of `Plan` and
`Run`; `Maps` is the value axify.py gives it.

Modules: `Wrappers` (Option/Result), `Text` (join, counts, splitting),
`Scale` (colours and the positions `ii/(n-1)`), `Pgf` (the declaration and its
reader), `ColorMaps` (the `ColorMap` class), `Plot` (the drivers) and `Script`
(axify.py).

Behaviour of the code the model keeps:

- `_sample` always takes 100 samples, at `ii/99`, and `toPGF` writes each
  sample as `str` prints it.
- A workspace search keeps the *last* map with the requested name.
- `toScatter` takes `dataMin`/`dataMax` from column 2 whatever `zLim` is.
- A missing input file in axify.py evaluates `raise(StandardError)`. Under
  Python 3 that name is undefined, so the error raised is `NameError`.

## Model

| member | source | states |
|---|---|---|
| `ColorMaps.LastMatch` | axify/axify.py:93-100 | the index found holds a map with the requested name and no later map has that name; `None` only when no map has it, so the last match wins |
| `ColorMaps.Resolve` | axify/axify.py:82-129 | a workspace match wins and is the last map of that name; failing that, a name matplotlib knows is used with empty colours and positions; `NotImplementedError` exactly when the name is in neither |
| `ColorMaps.SegmentTable` | axify/axify.py:104-111 | each of the red, green and blue lists has one `[pos, c_k, c_k]` row per zipped (colour, position) pair, in input order, as many as the shorter list |
| `ColorMaps.BuildSegments` | axify/axify.py:104-111 | the appending loop over `zip(cols, pos)` produces exactly that segment table |
| `ColorMaps.SamplePositions` | axify/axify.py:132-139 | the 100 sample positions start at 0, end at 1 and strictly increase |
| `ColorMaps.Sample` | axify/axify.py:131-141 | `_sample` returns a fresh 3 x 100 array whose column `ii` is the colour at `ii/99` |
| `ColorMaps.SegmentTableValid` | axify/axify.py:104-117 | matplotlib accepts the table built from `zip(cols, pos)` exactly when at least one pair survives the `zip`, the first surviving position is 0, the last is 1, and they never decrease |
| `ColorMaps.ChannelValid` | axify/axify.py:104-111 | a channel whose rows sit at the first positions passes matplotlib's check exactly when those positions are non-empty, start at 0, end at 1 and never decrease |
| `ColorMaps.AllMatchesValidStep` | axify/axify.py:93-117 | one more pass of the search loop keeps every match so far accepted when the new map is no match or its table is accepted |
| `ColorMaps.SampleMatch` | axify/axify.py:104-117 | one match's table, map and sampling: `ValueError` exactly when matplotlib rejects the table, otherwise the map built from it and a fresh valid sampling |
| `ColorMaps.SearchWorkspace` | axify/axify.py:93-117 | the search loop raises `ValueError` exactly when some map with the name has a rejected table; otherwise it keeps the last match, sampled, and finds nothing exactly when no map has the name |
| `ColorMaps.RejectedMatchResolves` | axify/axify.py:93-129 | a rejected segment table always belongs to a workspace match, so `ValueError` and `NotImplementedError` never compete |
| `ColorMaps.Create` | axify/axify.py:82-129 | construction raises `ValueError` exactly when some workspace map with the name has a segment table matplotlib rejects (each match is sampled as it is met), and otherwise fails exactly when resolution fails; a successful object has the resolved name, colours, positions, colour function (segment-table map or built-in map) and a valid sampling of it |
| `ColorMaps.EntryOfColumn` | axify/axify.py:150-158 | entry `ii` of the declaration is built from column `ii` of the sample array and the position `ii/99` |
| `ColorMaps.ColorMap.constructor` | axify/axify.py:82-129 | a new object keeps the given name, colours, positions, colour function and sample array, and is valid: the array is the 3 x 100 sampling of the colour function |
| `ColorMaps.ColorMap.ColumnEntry` | axify/axify.py:150-158 | the entry built from column `ii` of the stored sample array is entry `ii` of the declaration of the map's samples |
| `ColorMaps.ColorMap.ToPGF` | axify/axify.py:143-161 | the accumulated text equals the declaration of the map's 100 samples (header, one entry per column in order, closing brace) |
| `Pgf.Format` | axify/axify.py:143-161 | the declaration is longer than its header, starts with `colormap={NAME}{` and ends with `}` |
| `Pgf.ConcatPrefix` | axify/axify.py:150-159 | appending entry `i` to the text of the first `i` entries gives the text of the first `i + 1`, as each pass of the loop does |
| `Pgf.FormatShape` | axify/axify.py:146-161 | the declaration starts with `colormap={NAME}{`, ends with `}`, and its last entry is comma-terminated like the others |
| `Pgf.ParseFormat` | axify/axify.py:148-159 | reading the declaration back gives exactly N entries in order; entry `ii` holds the text of `ii/(N-1)` and of the three channels of column `ii` |
| `Pgf.ParseEntryOf` | axify/axify.py:144-145 | one entry's text `rgb(POS pt)=(R,G,B),`, followed by any text, is read back as that entry and that text, provided its numbers hold no delimiter |
| `Pgf.ParseEntriesOf` | axify/axify.py:144-145 | comma-terminated entries whose numbers contain no delimiter are read back one for one |
| `Scale.PositionInUnit` | axify/axify.py:139 | every position `ii/(n-1)` with `ii < n` lies in [0, 1] |
| `Scale.PositionIncreasing` | axify.py:101-102 | positions `ii/(n-1)` strictly increase with `ii` when `n >= 2` |
| `Scale.PositionEnds` | axify.py:101-102 | the first position is 0 and the last is 1 |
| `Plot.Min` | axify/axify.py:243 | `np.min` of a non-empty vector is one of its elements and no element is smaller |
| `Plot.Max` | axify/axify.py:243 | `np.max` of a non-empty vector is one of its elements and no element is larger |
| `Plot.Elements` | axify/axify.py:243 | the cells `np.min`/`np.max` reduce over are empty exactly when the array has no rows or no columns |
| `Plot.FlattenMembers` | axify/axify.py:243 | a value is among the flattened cells exactly when some row holds it |
| `Plot.ElementsMembers` | axify/axify.py:243 | a value is among the cells `np.min`/`np.max` reduce over exactly when it sits at some row `i`, column `j` of the array |
| `Plot.Extent` | axify/axify.py:243 | `[np.min, np.max]` gives the least and greatest value, and `ValueError` on an empty vector |
| `Plot.NpColumn` | axify/axify.py:345 | `arr[:, k]` is column `k`, or `IndexError` when there is no such column |
| `Plot.PlotInfo` | axify/axify.py:248-260 | the dictionary literal `dctPlotInfo` has exactly the eleven keys `dataMin` to `colormap` |
| `Plot.TexPath` | axify/axify.py:245-246 | `texPath` is kept when given and becomes `imgPath` when it is `None` |
| `Plot.Update` | axify/axify.py:262 | after `update`, every `themeArgs` key has the caller's value, every other key keeps its computed value, and no other key appears |
| `Plot.HeatmapLimits` | axify/axify.py:236-255 | empty x/y limits become `[0, columns]`/`[0, rows]`, an empty value range becomes the least and greatest cell, given limits are kept; `ValueError` for an empty array with no range, `IndexError` for a limit with one entry |
| `Plot.ScatterLimits` | axify/axify.py:344-363 | x/y default to the extent of columns 0 and 1; the data range is always column 2's; errors exactly when column 2 is missing, there are no rows, or a given x/y limit has one entry |
| `Plot.ScatterLimitsErrors` | axify/axify.py:344-363 | which exception `toScatter`'s ranges raise: `IndexError` for a missing column or a one-entry limit, `ValueError` for a reduction over no rows, whichever the source meets first |
| `Plot.MergedFields` | axify/axify.py:248-262 | the merged dictionary has the eleven computed keys plus the caller's; `imagePath` defaults to `imgPath` |
| `Plot.HeatmapDefaults` | axify/axify.py:236-260 | with no limits and a non-empty array the heatmap dictionary holds x in [0, columns], y in [0, rows], the cell minimum and maximum, and `texPath` defaulted to `imgPath` |
| `Plot.HeatmapGivenLimits` | axify/axify.py:236-255 | limits the caller gives reach the heatmap dictionary unchanged |
| `Plot.ScatterDefaults` | axify/axify.py:344-368 | with no x/y limits the scatter dictionary holds the extents of columns 0, 1 and 2, whatever `zLim` is |
| `Plot.ScatterIgnoresZLim` | axify/axify.py:350-358 | once the scatter dictionary can be built, changing `zLim` does not change it |
| `Plot.HeatmapRanges` | axify/axify.py:236-243 | the three `if ... == []` defaults of `toHeatmap` compute exactly the heatmap ranges, errors included |
| `Plot.ScatterRanges` | axify/axify.py:344-363 | the defaults of `toScatter` and its column-2 data range compute exactly the scatter ranges, errors included |
| `Plot.ComposeInfo` | axify/axify.py:245-262 | `dctPlotInfo` with the map's PGF declaration and the caller's fields merged in is handed to `_compose` only when the image was written |
| `Plot.ToHeatmap` | axify/axify.py:236-280 | the driver's result is the heatmap dictionary with the map's PGF declaration, composed only when the image was written |
| `Plot.ToScatter` | axify/axify.py:344-401 | the driver's result is the scatter dictionary with the map's PGF declaration, composed only when the image was written |
| `Script.CustomTex` | axify.py:95-105 | the custom-map TeX text fails with `ZeroDivisionError` exactly for a single colour (`from_list`'s own checks are not modelled) |
| `Script.GenCustomColormap` | axify.py:85-106 | the node loop yields the `from_list` arguments and the `colormap={mymap}{...}` text, and fails with `ZeroDivisionError` exactly for a single colour (`from_list`'s own checks are not modelled) |
| `Script.CustomTexNodeCount` | axify.py:99-105 | with `n >= 2` colours the text holds exactly `n - 1` node separators, so one node per colour |
| `Script.ComponentFields` | axify.py:100 | a colour's text has one comma-separated field per component |
| `Script.NodeOfTriple` | axify.py:100-102 | the node of a three-component colour is `rgb(POS pt)=(c0,c1,c2)` with its components in order |
| `Script.GenPresentColormap` | axify.py:112-113 | `genPresentColormap` names the same map for matplotlib and, after `colormap/`, for PGFplots |
| `Script.Maps` | axify.py:117-122 | the table has exactly the keys `hot`, `jet` and `tui`; `hot` and `jet` are PGFplots references; `tui` is the custom map of its three colours |
| `Script.TuiPalette` | axify.py:120 | `tui`'s colours are a red, white and a blue |
| `Script.TuiTex` | axify.py:105-121 | `tui`'s TeX text places its three colours at 0, 0.5 and 1 under the name `mymap` |
| `Script.ComposeArgs` | axify.py:138-144 | the substituted tuple has one argument per conversion of the `simple` template |
| `Script.Compose` | axify.py:125-147 | `compose` raises `KeyError` exactly for a theme not in `themes`, whose only entry `simple` has six conversions; the binding it produces is stated by `Script.ComposeBinding` |
| `Script.Bind` | axify.py:138-144 | positional substitution gives each template conversion the argument at its index |
| `Script.ComposeBinding` | axify.py:138-144 | in `simple`, the meta range fills `point meta min`/`max`, the TeX text `colormap`, the two entries of `size` `xmax` and `ymax`, and the path `graphics` |
| `Script.Plan` | axify.py:157-177 | one input file fails exactly when it is missing, its map is not in `maps`, its array has no rows or no columns, or the theme is unknown |
| `Script.PlanValues` | axify.py:157-175 | for a file that succeeds the template gets xmax = column count, ymax = row count, the least and greatest cell of the whole array, the map's TeX text and the path |
| `Script.PlanErrors` | axify.py:157-177 | the exception for one file: `NameError` when it is missing, else `KeyError` for an unknown map, else `ValueError` for an empty array, else `KeyError` for an unknown theme |
| `Script.PlanColorMap` | axify.py:117-122 | with the script's own table, `colormap` receives `colormap/hot` or `colormap/jet`, or the custom declaration for `tui` |
| `Script.Run` | axify.py:157-177 | each input file's template binding in order, for the given `maps` table, stopping at the first file that raises |

## Left out

- matplotlib: `register_cmap`, `get_cmap`, `ScalarMappable.to_rgba`, `LinearSegmentedColormap.from_list`, `imsave`, `scatter` and `savefig` are foreign code. Colour functions and map names are parameters. The global registry of named maps is not modelled, so a later `plt.colormaps()` does not see maps registered earlier.
- colorfy: loading a `Workspace` and its failure are not modelled. The workspace is a given sequence of maps, and each colour's `tplDef` is an RGB triple.
- File I/O: `Theme.__init__`/`reload`, `_compose`, `generateHeader`, the file writes of `compose`, and the existence check and `np.load` of the script. The driver's image write becomes the flag `imageWritten`, and the script's file access becomes `load`.
- Template text: `theme.string % dctPlotInfo` and the `%` substitution in `compose` are not modelled as text. The drivers stop at the dictionary, and the script stops at the slot-to-argument binding of the `simple` template.
- Number formatting: the texts of `str(float)` and `%f` are parameters. The PGF reader assumes only that `str` writes numeral characters.
- The heatmap normalisation `(arr - zmin)/(zmax - zmin)` is floating-point array arithmetic; its values feed only the image, and its unguarded division for constant data is not modelled.
- Plot.ToHeatmap: array cells are `real`, so integer arrays are not modelled; for them `mat /= ...` raises numpy's casting `TypeError` before the image is written, so `toHeatmap` raises instead of composing.
- Command-line parsing with argparse, axify/__init__.py (re-exports), setup.py and demo/test.py.
- Pgf.Format: requires other than one sample column; the source would divide by zero, but `ColorMap` always has 100 columns.
- ColorMaps.Create: of matplotlib's checks of a segment table only the ones a `zip`-built table can fail are modelled (rows, first and last x, order); `Mpl.fromSegments` stands for the map of an accepted table.
- Script.Plan, Script.PlanErrors: `imsave` sees the array before `np.min`; its own failures are not modelled, so an empty array gets the `ValueError` of `np.min`.
- Script.GenCustomColormap: `from_list`'s own validation is matplotlib's and is not modelled: components outside [0, 1], colours that are not 3- or 4-tuples, 2-tuples read as (position, colour) pairs, and an empty colour list (for which the model returns the text `colormap={mymap}{}`). Only the `ZeroDivisionError` of the node loop is modelled.
- Script.CustomTex: the same `from_list` failures are not modelled.
- Plot.Extent, Plot.Min, Plot.Max: values are `real`, so NaN and infinities are not modelled; `np.min`/`np.max` of data holding NaN return NaN, which is not a least or greatest element.
- Plot.Array2: the array is two-dimensional; `imsave` in axify.py would also accept an M x N x 3 or M x N x 4 RGB(A) array, and `np.min`/`np.max` would reduce over all of it.
- Plot.ToHeatmap, Plot.ToScatter: exceptions other than `IOError` from the image write are not distinguished; the image either was written or was not.
