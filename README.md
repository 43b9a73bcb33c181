# abTEM plotting helpers in Dafny

A Dafny model of the non-drawing logic in abTEM's plotting module,
`abtem/plot.py`. It covers three parts:

- `plane2axes` turns a plane label such as `"xz"` into axis indices.
  The named axes come first, in the order given. The one axis left over
  comes last; `plot_atoms` uses it as the depth axis.
- The `cube` table lists the twelve edges of the unit cube. `plot_atoms`
  draws one line segment per edge, projected through the cell into the
  chosen plane.
- `_prepare_array` turns a wave-function object into the 2-D real array
  that `plot_profile` and `plot_image` draw. It runs these steps in order:
  optional build, slice selection, real or Fourier space, linear or log
  scale, complex-to-real conversion.

Modules:

- `Wrappers` (`wrappers.dfy`): `Option` and `Result`. Python exceptions
  become `Err` values.
- `Plane` (`plane.dfy`): `Plane2Axes` keeps the source's loop. `axes` grows
  and `lastAxis` shrinks through a model of `list.remove`. The method is
  proved equal to `Plane2AxesSpec`, a definition without a loop. The
  lemmas are about that definition.
- `CellOutline` (`cell_outline.dfy`): the `cube` table as a constant
  sequence, with lemmas about its shape. A `Canvas` class records the
  segments plotted on it and its two axis labels. `DrawOutline` is the
  wireframe loop. `PlotAtoms` holds the control flow of `plot_atoms`
  around it, up to the axis labels.
- `Prepare` (`prepare.dfy`): `_prepare_array` as pure functions
  returning a `Result`. Arrays are abstracted to a shape, a complex-dtype
  flag and a symbolic term. The term records which transforms (FFT, log,
  conversion) produced the values. `PrepareArray`, `PrepareArrayAsWritten` and
  `PlotAtoms` carry the source's default arguments (`i=0`, `space='real'`,
  `scale='linear'`, `logscale_constant=.1`, `convert=None`, `plane='xy'`).

## Model

| member | source | states |
|---|---|---|
| `Plane.Plane2Axes` | abtem/plot.py:26-39 | the loop that appends to `axes` and removes from `last_axis` returns exactly `Plane2AxesSpec`: the first repeated letter raises in `remove`, naming all three axes raises at `last_axis[0]`, otherwise the named axes are followed by the first axis left |
| `Plane.Plane2AxesSpec` | abtem/plot.py:26-39 | what `plane2axes` computes without its loop: a failing `remove` names a recognised axis, and a success is one entry longer than the recognised letters (at most one longer than the plane) |
| `Plane.AxesFor` | abtem/plot.py:29-39 | for a list of named axes, a failing `remove` names an axis of the list, and a success is the list followed by one more axis |
| `Plane.Remove` | abtem/plot.py:32-38 | `list.remove(x)` fails exactly when `x` is not in the list, and otherwise shortens the list by one |
| `Plane.FirstIndex` | abtem/plot.py:32-38 | the position `list.remove` acts on: an occurrence of `x` with none before it |
| `Plane.RemoveFirst` | abtem/plot.py:32-38 | `list.remove(x)` drops the first occurrence of `x` and keeps every other entry in order |
| `Plane.Plane2AxesOutcome` | abtem/plot.py:29-39 | succeeds iff the recognised letters are distinct and fewer than three; raises the `last_axis[0]` IndexError iff three distinct axes are named; raises the `remove` ValueError iff a letter repeats |
| `Plane.Plane2AxesResult` | abtem/plot.py:29-39 | a result has one entry more than the letters recognised, starts with the named axes in input order, and ends with the lowest axis not named |
| `Plane.Plane2AxesBounds` | abtem/plot.py:27-39 | every result holds one to three entries, each an axis index below 3 |
| `Plane.ValidPlanePermutation` | abtem/plot.py:26-39 | for each two-letter plane of distinct axis letters the result is a permutation of (0, 1, 2) whose first two entries are the letters' axes |
| `Plane.ValidPlaneAxes` | abtem/plot.py:26-39 | a two-letter plane of distinct axis letters `a`, `b` returns `(a, b, 3 - a - b)`: the named pair in order, then the remaining axis |
| `Plane.SixPlanes` | abtem/plot.py:26-39 | `xy`→(0,1,2), `yx`→(1,0,2), `xz`→(0,2,1), `zx`→(2,0,1), `yz`→(1,2,0), `zy`→(2,1,0) |
| `Plane.IgnoresOtherCharacters` | abtem/plot.py:29-38 | inserting a character other than `x`, `y`, `z` anywhere changes neither the result nor the exception |
| `Plane.ThreeAxesNeedTwoLetters` | abtem/plot.py:26-39 | a three-entry result comes from a plane of at least two characters, so `plane[0]` and `plane[1]` exist |
| `Plane.FirstRepeatNoneIffDistinct` | abtem/plot.py:32-38 | no `remove` fails iff the recognised letters name distinct axes |
| `CellOutline.Cube` | abtem/plot.py:12-23 | the `cube` table, row for row and in order |
| `CellOutline.CubeRowsAreEdges` | abtem/plot.py:12-23 | `cube` has 12 rows; each joins two 0/1 corners that differ in exactly one coordinate, going from 0 to 1 in it (`UnitStep`) |
| `CellOutline.CubeRowsDistinct` | abtem/plot.py:12-23 | no edge appears twice, in either direction |
| `CellOutline.CubeRowsComplete` | abtem/plot.py:12-23 | every pair of unit-cube corners one coordinate apart is a row of `cube` |
| `CellOutline.ToCartesian` | abtem/plot.py:53 | `np.dot(corner, cell)` maps the origin to zero and each unit corner to the matching row of the cell matrix |
| `CellOutline.UnitStepAddsDirection` | abtem/plot.py:53 | along a cube edge that goes from 0 to 1, the projected end point is the projected start plus the cell vector of the coordinate that changes |
| `CellOutline.EdgeSegment` | abtem/plot.py:53-54 | the `ax.plot` arguments for an edge start at columns `axes[0]`, `axes[1]` of its first projected corner, and for a cube edge span those columns of the cell vector it runs along |
| `CellOutline.Outline` | abtem/plot.py:52-54 | the wireframe has one segment per row of `cube`, segment `k` being that of row `k` |
| `CellOutline.OutlineSegmentsAreCellVectors` | abtem/plot.py:52-54 | segment `k` starts at the projection of its edge's first corner (`np.dot(line[0], cell)`) and spans the projection of the cell vector the edge runs along |
| `CellOutline.Canvas.Plot` | abtem/plot.py:54 | one `ax.plot` call appends exactly one segment and leaves the labels alone |
| `CellOutline.Canvas.SetXLabel` | abtem/plot.py:68 | `ax.set_xlabel` sets the x label and nothing else |
| `CellOutline.Canvas.SetYLabel` | abtem/plot.py:69 | `ax.set_ylabel` sets the y label and nothing else |
| `CellOutline.DrawOutline` | abtem/plot.py:52-54 | the wireframe loop appends exactly `Outline` to the segments drawn, in table order, and leaves the labels alone |
| `CellOutline.OneLetterPlanes` | abtem/plot.py:57-58 | `"x"` and `"xa"` resolve to the two axes (0, 1), so with atoms `plot_atoms` fails at `axes[2]` |
| `CellOutline.PlotAtoms` | abtem/plot.py:46-69 | a `plane2axes` failure draws nothing and propagates. With one resolved axis, `axes[1]` fails before anything is drawn. Otherwise exactly the 12 wireframe segments are drawn in table order, whether or not there are atoms. With atoms, a plane resolving to only two axes then fails at `axes[2]`. Otherwise the x and y labels become `plane[0]` and `plane[1]`, which always exist. |
| `Prepare.Materialise` | abtem/plot.py:117-122 | the array worked on is the built one for an object with `build()`, and the object's own array otherwise |
| `Prepare.Message` | abtem/plot.py:131-143 | the two RuntimeErrors carry the texts naming the accepted values; the NameError carries Python's `name '…' is not defined`; the IndexError's text is numpy's and has none here |
| `Prepare.SelectSlice` | abtem/plot.py:124-125 | a 3-axis array becomes slice `i` of its values, or slice `n + i` for negative `i`, with the first axis dropped; outside `-n <= i < n` it raises IndexError; other arrays pass unchanged |
| `Prepare.ToSpace` | abtem/plot.py:127-131 | `fourier` gives a complex array of the same shape whose values are `fftshift(fft2(...))` of the input; `real` changes nothing; any other value raises |
| `Prepare.ToScale` | abtem/plot.py:133-137 | `log` gives `log(1 + c * array)` with the same shape and dtype kind; `linear` changes nothing; any other value raises |
| `Prepare.Convert` | abtem/plot.py:139-143 | an explicit `convert` is always applied; without one, complex data becomes its intensity and real data is left alone; the result is never complex |
| `Prepare.Transformed` | abtem/plot.py:117-137 | steps (1)-(4) fail in step order and succeed iff no step fails; the result has the sliced shape, is complex iff the input was or `space` is `fourier`, and holds `StepValues`: slice, then FFT, then log |
| `Prepare.PrepareArray` | abtem/plot.py:116-145 | errors in step order (slice index, then `space`, then `scale`); success iff none occurs; the result is real, and 2-D when the input was a stack |
| `Prepare.PrepareArrayAsWritten` | abtem/plot.py:116-145 | as written, any explicit `convert`, and any Fourier-space call, fails; a successful result is real |
| `Prepare.StepOrder` | abtem/plot.py:116-145 | every result's values are the composition slice, FFT, log, then conversion: the one requested, or `'intensity'` when the data is complex after the Fourier step |
| `Prepare.FourierLogOfLastSlice` | abtem/plot.py:124-143 | a real stack of three 4×4 images with `i = -1`, `fourier`, `log`: the intensity of the log of the shifted FFT of slice 2 |
| `Prepare.SpaceCheckedBeforeScale` | abtem/plot.py:124-137 | once the slice step has succeeded (otherwise its IndexError comes first), an invalid `space` gives the `space` error whatever `scale` is |
| `Prepare.StackSlicedFirst` | abtem/plot.py:124-145 | a stack gives the same outcome as the same call on its slice `i` |
| `Prepare.BuildIsTransparent` | abtem/plot.py:117-122 | a lazy object gives the same outcome as the object it builds |
| `Prepare.IdentityPath` | abtem/plot.py:124-145 | real space, linear scale, no `convert`, real data that is not a stack: the array is returned unchanged |
| `Prepare.IntensityByDefault` | abtem/plot.py:139-143 | with no `convert`, complex data, and so every Fourier-space result, is converted to `'intensity'` |
| `Prepare.ExplicitConversion` | abtem/plot.py:139-140 | an explicit `convert` is applied with that output mode |
| `Prepare.AsWrittenDiffersOnlyAtConvert` | abtem/plot.py:139-143 | the code as written agrees with `PrepareArray` except where `convert_complex` is reached; there it raises NameError where `PrepareArray` succeeds |
| `Prepare.ComplexInputRaisesNameError` | abtem/plot.py:116-143 | a complex 4×4 array with every other argument at its default (real space, linear scale, no `convert`): NameError as written, an intensity array as intended |

## Left out

- Everything `plot_atoms` draws besides the wireframe: atom disks, colours and radii from ase's tables, index labels, `axis('equal')` and the scan-area rectangle. These are calls on a plotting object.
- The depth sort in `plot_atoms` (`np.argsort` over float coordinates) is left out. It is not guaranteed stable and depends on ase data.
- `CellOutline`: `Vec` has `real` coordinates, so numpy's floating-point rounding in `np.dot` is not modelled. `ToCartesian`'s, `EdgeSegment`'s and `OutlineSegmentsAreCellVectors`' exact equalities hold over the reals and only up to rounding in floats.
- `PlotAtoms`: `Atoms.positions` stands for the structure after `atoms *= repeat + (1,)`. A `repeat` containing 0 leaves no atoms, and then the atom branch, the `axes[2]` error and the labels are skipped. The model does not compute this replication.
- `PlotAtoms` takes the cell as a parameter: the cell `atoms.cell` holds when the wireframe loop runs. Copying and replicating the structure belong to ase.
- `PlotAtoms`: the local `cell` aliases the structure's cell object, and ase's in-place `atoms *= repeat + (1,)` writes the repeated cell through that alias. With current ase the wireframe is therefore the outline of the repeated cell. The model does not capture this aliasing; the caller passes whichever cell is in force.
- `PlotAtoms` takes the drawing surface as given. Creating a figure when `ax is None` is a global plotting side effect.
- `plot_ctf` is left out. It relies on foreign envelope and aberration functions, float comparisons and `np.allclose`.
- `plot_profile`, `plot_image` and `domain_coloring` are left out. They are drawing and floating-point colour mapping.
- `Prepare`: FFT, `fftshift`, `log` and `convert_complex` are symbolic terms, not numerics.
- `Prepare`: numpy's own errors inside those calls are not modelled, for example `fft2` on an array with fewer than two axes, or an unknown `convert` mode.
- `Prepare`: a missing `.array` attribute is not modelled.
- `Prepare.Materialise`: the duck-typed `build()` probe using `AttributeError` is modelled as the two-variant `Waves` datatype.

## Findings

| source | as written | input that shows it | evidently intended | confidence | as-written member | corrected member |
|---|---|---|---|---|---|---|
| abtem/plot.py:139-143 | `convert_complex` is called, but the module never imports or defines it, so the call raises NameError | a complex 2-D array with `space='real'`, `scale='linear'`, `convert=None` (also any explicit `convert`, and any `space='fourier'` call) | apply the complex-to-real conversion: the requested mode, or `'intensity'` for complex data | not executed; high: no import in the file binds the name | `Prepare.PrepareArrayAsWritten`, `Prepare.ComplexInputRaisesNameError` | `Prepare.PrepareArray` |
