/** `_prepare_array` (abtem/plot.py): the steps that turn a wave-function
    object into the 2-D real array that `plot_profile` and `plot_image` draw.
    The numerics are kept symbolic: an array is its shape, whether its dtype
    is complex, and a term recording which transforms produced its values. */
module Prepare {
  import opened Wrappers

  /** The values of an array, as the sequence of transforms applied to the
      values a wave object holds. */
  datatype Values =
    | Stored(id: nat)                          // the values `waves.array` holds
    | Slice(of: Values, index: nat)            // `array[i]` along the first axis
    | Fft2Shifted(of: Values)                  // `np.fft.fftshift(np.fft.fft2(array))`
    | LogScaled(constant: real, of: Values)    // `np.log(1 + constant * array)`, not `log1p`
    | Converted(of: Values, output: string)    // `convert_complex(array, output=...)`

  /** A numpy array: its shape, whether its dtype is complex, its values. */
  datatype Array = Array(shape: seq<nat>, isComplex: bool, values: Values)

  /** A wave object that either holds its array already, or computes it when
      `build()` is called. */
  datatype Waves = Materialised(held: Array) | Lazy(built: Array)

  /** The exceptions `_prepare_array` raises. */
  datatype PrepareError =
    | IndexOutOfRange(index: int, length: nat)  // `array[i]` on a stack of `length` slices (IndexError)
    | BadSpace                                  // RuntimeError on an unknown `space`
    | BadScale                                  // RuntimeError on an unknown `scale`
    | NameNotDefined(name: string)              // NameError: a name the module never binds

  /** The text an error carries, where this module or Python writes it: the
      two RuntimeErrors and the NameError. The IndexError text comes from
      numpy and is not modelled. */
  function Message(e: PrepareError): (m: Option<string>)
    ensures m.None? <==> e.IndexOutOfRange?
    ensures e.BadSpace? ==> m == Some("space must be \"real\" or \"fourier\"")
    ensures e.BadScale? ==> m == Some("scale must be \"log\" or \"linear\"")
    ensures e.NameNotDefined? ==> m == Some("name '" + e.name + "' is not defined")
  {
    match e
    case BadSpace => Some("space must be \"real\" or \"fourier\"")
    case BadScale => Some("scale must be \"log\" or \"linear\"")
    case NameNotDefined(name) => Some("name '" + name + "' is not defined")
    case IndexOutOfRange(_, _) => None
  }

  predicate ValidSpace(space: string) {
    space == "real" || space == "fourier"
  }

  predicate ValidScale(scale: string) {
    scale == "linear" || scale == "log"
  }

  /** The array to work on: the result of `build()` when the object has one,
      the object's own array otherwise. */
  function Materialise(waves: Waves): (r: Array)
    ensures waves.Lazy? ==> r == waves.built
    ensures waves.Materialised? ==> r == waves.held
  {
    match waves
    case Materialised(a) => a
    case Lazy(a) => a
  }

  /** A 3-axis array is a stack of images; take image `i`, with numpy's
      negative indices counting from the end. Other arrays pass unchanged. */
  function SelectSlice(a: Array, i: int): (r: Result<Array, PrepareError>)
    ensures |a.shape| != 3 ==> r == Ok(a)
    ensures |a.shape| == 3 ==>
      (r.Ok? <==> -a.shape[0] <= i < a.shape[0])
      && (r.Ok? ==> r.value.shape == a.shape[1..] && r.value.isComplex == a.isComplex)
      && (r.Ok? ==> r.value.values.Slice? && r.value.values.of == a.values)
      && (r.Ok? ==> r.value.values.index < a.shape[0])
      && (r.Ok? && 0 <= i ==> r.value.values.index == i)
      && (r.Ok? && i < 0 ==> r.value.values.index == a.shape[0] + i)
      && (r.Err? ==> r.error == IndexOutOfRange(i, a.shape[0]))
  {
    if |a.shape| != 3 then Ok(a)
    else
      var n := a.shape[0];
      if -n <= i < n then Ok(Array(a.shape[1..], a.isComplex, Slice(a.values, if i < 0 then i + n else i)))
      else Err(IndexOutOfRange(i, n))
  }

  /** The `space` step: the Fourier transform gives a complex array of the
      same shape; "real" leaves the array alone; anything else raises. */
  function ToSpace(a: Array, space: string): (r: Result<Array, PrepareError>)
    ensures r.Err? <==> !ValidSpace(space)
    ensures r.Err? ==> r.error == BadSpace
    ensures space == "real" ==> r == Ok(a)
    ensures space == "fourier" ==> r.Ok? && r.value.isComplex && r.value.shape == a.shape
    ensures space == "fourier" ==> r.value.values == Fft2Shifted(a.values)
  {
    if space == "fourier" then Ok(Array(a.shape, true, Fft2Shifted(a.values)))
    else if space != "real" then Err(BadSpace)
    else Ok(a)
  }

  /** The `scale` step: the log scale keeps shape and dtype kind; "linear"
      leaves the array alone; anything else raises. */
  function ToScale(a: Array, scale: string, logscaleConstant: real): (r: Result<Array, PrepareError>)
    ensures r.Err? <==> !ValidScale(scale)
    ensures r.Err? ==> r.error == BadScale
    ensures scale == "linear" ==> r == Ok(a)
    ensures r.Ok? ==> r.value.shape == a.shape && r.value.isComplex == a.isComplex
    ensures scale == "log" ==> r.Ok? && r.value.values == LogScaled(logscaleConstant, a.values)
  {
    if scale == "log" then Ok(Array(a.shape, a.isComplex, LogScaled(logscaleConstant, a.values)))
    else if scale != "linear" then Err(BadScale)
    else Ok(a)
  }

  /** The conversion step as the code evidently intends it: an explicit
      `convert` always applies; without one, complex data is converted to
      its intensity and real data is left alone. The result is never
      complex. */
  function Convert(a: Array, convert: Option<string>): (r: Array)
    ensures !r.isComplex && r.shape == a.shape
    ensures convert.Some? ==> r.values == Converted(a.values, convert.value)
    ensures convert.None? && a.isComplex ==> r.values == Converted(a.values, "intensity")
    ensures convert.None? && !a.isComplex ==> r == a
  {
    match convert
    case Some(output) => Array(a.shape, false, Converted(a.values, output))
    case None => if a.isComplex then Array(a.shape, false, Converted(a.values, "intensity")) else a
  }

  /** Whether the final step calls `convert_complex` at all. */
  predicate CallsConvert(a: Array, convert: Option<string>) {
    convert.Some? || a.isComplex
  }

  /** The values after steps (2)-(4), written as one composition in step
      order: the slice (a negative index counted from the end), then the
      Fourier transform, then the log. */
  function StepValues(a: Array, i: int, space: string, scale: string, logscaleConstant: real): Values
    requires |a.shape| == 3 ==> -a.shape[0] <= i < a.shape[0]
  {
    var sliced := if |a.shape| == 3 then Slice(a.values, if i < 0 then a.shape[0] + i else i) else a.values;
    var spaced := if space == "fourier" then Fft2Shifted(sliced) else sliced;
    if scale == "log" then LogScaled(logscaleConstant, spaced) else spaced
  }

  /** The array after steps (1)-(4): build, slice, space, scale. Each step
      sees the output of the one before, and the first step that fails
      decides the error. */
  function Transformed(waves: Waves, i: int, space: string, scale: string, logscaleConstant: real)
    : (r: Result<Array, PrepareError>)
    ensures var sliced := SelectSlice(Materialise(waves), i);
      && (sliced.Err? ==> r == Err(sliced.error))
      && (sliced.Ok? && !ValidSpace(space) ==> r == Err(BadSpace))
      && (sliced.Ok? && ValidSpace(space) && !ValidScale(scale) ==> r == Err(BadScale))
      && (r.Ok? <==> sliced.Ok? && ValidSpace(space) && ValidScale(scale))
    ensures r.Ok? ==>
      var a := Materialise(waves);
      var stack := |a.shape| == 3;
      && r.value.shape == (if stack then a.shape[1..] else a.shape)
      && r.value.isComplex == (a.isComplex || space == "fourier")
      && r.value.values == StepValues(a, i, space, scale, logscaleConstant)
  {
    match SelectSlice(Materialise(waves), i)
    case Err(e) => Err(e)
    case Ok(sliced) =>
      match ToSpace(sliced, space)
      case Err(e) => Err(e)
      case Ok(spaced) => ToScale(spaced, scale, logscaleConstant)
  }

  /** `_prepare_array` with the conversion step bound to a `convert_complex`
      that does what its name says. Errors come in the order of the steps:
      a bad slice index first, then a bad `space`, then a bad `scale`. */
  function PrepareArray(waves: Waves, i: int := 0, space: string := "real", scale: string := "linear",
                        logscaleConstant: real := 0.1,
                        convert: Option<string> := None): (r: Result<Array, PrepareError>)
    ensures r.Ok? ==> !r.value.isComplex
    ensures var sliced := SelectSlice(Materialise(waves), i);
      && (sliced.Err? ==> r == Err(sliced.error))
      && (sliced.Ok? && !ValidSpace(space) ==> r == Err(BadSpace))
      && (sliced.Ok? && ValidSpace(space) && !ValidScale(scale) ==> r == Err(BadScale))
      && (r.Ok? <==> sliced.Ok? && ValidSpace(space) && ValidScale(scale))
    ensures r.Ok? && |Materialise(waves).shape| == 3 ==> |r.value.shape| == 2
    ensures r.Ok? && |Materialise(waves).shape| != 3 ==> r.value.shape == Materialise(waves).shape
  {
    match Transformed(waves, i, space, scale, logscaleConstant)
    case Err(e) => Err(e)
    case Ok(a) => Ok(Convert(a, convert))
  }

  /** `_prepare_array` as written: `convert_complex` is called but never
      imported or defined in the module, so every call that reaches it raises
      NameError. */
  function PrepareArrayAsWritten(waves: Waves, i: int := 0, space: string := "real", scale: string := "linear",
                                 logscaleConstant: real := 0.1,
                                 convert: Option<string> := None): (r: Result<Array, PrepareError>)
    ensures convert.Some? ==> r.Err?
    ensures r.Ok? ==> !r.value.isComplex
    ensures space == "fourier" ==> r.Err?
  {
    match Transformed(waves, i, space, scale, logscaleConstant)
    case Err(e) => Err(e)
    case Ok(a) => if CallsConvert(a, convert) then Err(NameNotDefined("convert_complex")) else Ok(a)
  }

  /** An invalid `space` raises whatever `scale` is, since `space` is checked
      first. */
  lemma SpaceCheckedBeforeScale(waves: Waves, i: int, space: string, scale1: string, scale2: string,
                                c: real, convert: Option<string>)
    requires SelectSlice(Materialise(waves), i).Ok? && !ValidSpace(space)
    ensures PrepareArray(waves, i, space, scale1, c, convert) == PrepareArray(waves, i, space, scale2, c, convert)
    ensures PrepareArray(waves, i, space, scale1, c, convert) == Err(BadSpace)
  {
  }

  /** A stack is reduced to slice `i` before anything else: the result is
      that of the same call on the single image. */
  lemma StackSlicedFirst(stack: Array, i: int, j: int, space: string, scale: string, c: real,
                         convert: Option<string>)
    requires |stack.shape| == 3 && -stack.shape[0] <= i < stack.shape[0]
    ensures var image := SelectSlice(stack, i).value;
      PrepareArray(Materialised(stack), i, space, scale, c, convert)
        == PrepareArray(Materialised(image), j, space, scale, c, convert)
  {
  }

  /** Building a lazy object first makes no difference to the outcome. */
  lemma BuildIsTransparent(a: Array, i: int, space: string, scale: string, c: real, convert: Option<string>)
    ensures PrepareArray(Lazy(a), i, space, scale, c, convert) == PrepareArray(Materialised(a), i, space, scale, c, convert)
  {
  }

  /** Real space, linear scale, no conversion, real data that is not a
      stack: the array comes back unchanged. */
  lemma IdentityPath(waves: Waves, i: int, c: real)
    requires |Materialise(waves).shape| != 3 && !Materialise(waves).isComplex
    ensures PrepareArray(waves, i, "real", "linear", c, None) == Ok(Materialise(waves))
  {
  }

  /** With no `convert`, complex data gets the intensity conversion; in
      particular every Fourier-space result is an intensity. */
  lemma IntensityByDefault(waves: Waves, i: int, space: string, scale: string, c: real)
    requires PrepareArray(waves, i, space, scale, c, None).Ok?
    requires Materialise(waves).isComplex || space == "fourier"
    ensures PrepareArray(waves, i, space, scale, c, None).value.values.Converted?
    ensures PrepareArray(waves, i, space, scale, c, None).value.values.output == "intensity"
  {
  }

  /** An explicit `convert` is always applied, whatever the data. */
  lemma ExplicitConversion(waves: Waves, i: int, space: string, scale: string, c: real, output: string)
    requires PrepareArray(waves, i, space, scale, c, Some(output)).Ok?
    ensures PrepareArray(waves, i, space, scale, c, Some(output)).value.values.Converted?
    ensures PrepareArray(waves, i, space, scale, c, Some(output)).value.values.output == output
  {
  }

  /** The code as written agrees with the corrected version whenever it does
      not reach `convert_complex`, and raises NameError whenever it does. */
  lemma AsWrittenDiffersOnlyAtConvert(waves: Waves, i: int, space: string, scale: string, c: real,
                                      convert: Option<string>)
    ensures var t := Transformed(waves, i, space, scale, c);
      if t.Ok? && CallsConvert(t.value, convert)
      then PrepareArrayAsWritten(waves, i, space, scale, c, convert) == Err(NameNotDefined("convert_complex"))
           && PrepareArray(waves, i, space, scale, c, convert).Ok?
      else PrepareArrayAsWritten(waves, i, space, scale, c, convert) == PrepareArray(waves, i, space, scale, c, convert)
  {
  }

  /** The values `_prepare_array` returns, as one composition in step order:
      slice, Fourier transform, log, then the conversion, which applies to
      an explicit `convert` and otherwise to data that is complex after the
      Fourier step. */
  lemma StepOrder(waves: Waves, i: int, space: string, scale: string, c: real, convert: Option<string>)
    requires PrepareArray(waves, i, space, scale, c, convert).Ok?
    ensures var a := Materialise(waves);
      var v := StepValues(a, i, space, scale, c);
      PrepareArray(waves, i, space, scale, c, convert).value.values ==
        match convert
        case Some(output) => Converted(v, output)
        case None => if a.isComplex || space == "fourier" then Converted(v, "intensity") else v
  {
  }

  /** The Fourier and log paths on a stack of three real images, with the
      last image chosen by a negative index: log of the shifted FFT of slice 2,
      converted to its intensity. */
  lemma FourierLogOfLastSlice(c: real)
    ensures PrepareArray(Materialised(Array([3, 4, 4], false, Stored(0))), -1, "fourier", "log", c, None)
      == Ok(Array([4, 4], false, Converted(LogScaled(c, Fft2Shifted(Slice(Stored(0), 2))), "intensity")))
  {
  }

  /** A concrete input on which the two differ: a complex 2-D array with
      every other argument left at its default (real space, linear scale,
      no `convert`). */
  lemma ComplexInputRaisesNameError()
    ensures var waves := Materialised(Array([4, 4], true, Stored(0)));
      && PrepareArrayAsWritten(waves) == Err(NameNotDefined("convert_complex"))
      && PrepareArray(waves) == Ok(Array([4, 4], false, Converted(Stored(0), "intensity")))
  {
  }
}
