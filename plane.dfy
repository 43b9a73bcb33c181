/** `plane2axes` (abtem/plot.py): a plane label such as "xz" becomes the axis
    indices `(0, 2, 1)` — the named axes in the order given, then the one axis
    left over, which `plot_atoms` uses as the depth axis. */
module Plane {
  import opened Wrappers

  /** The two exceptions the source can raise. */
  datatype PlaneError =
    | NotInList(axis: nat)  // `last_axis.remove(axis)` when `axis` was removed already (ValueError)
    | LastAxisMissing       // `last_axis[0]` when all three axes were removed (IndexError)

  /** The letters that name an axis. */
  predicate IsAxisLetter(c: char) {
    c == 'x' || c == 'y' || c == 'z'
  }

  /** The axis a character names: 'x', 'y', 'z' name 0, 1, 2; any other
      character names none. */
  function AxisOf(c: char): (r: seq<nat>)
    ensures |r| <= 1
    ensures forall k :: 0 <= k < |r| ==> r[k] < 3
  {
    if c == 'x' then [0] else if c == 'y' then [1] else if c == 'z' then [2] else []
  }

  /** The axes a label names, in the order it names them. */
  function Recognised(plane: string): (r: seq<nat>)
    ensures |r| <= |plane|
  {
    if plane == [] then [] else AxisOf(plane[0]) + Recognised(plane[1..])
  }

  /** Every recognised entry is an axis index 0, 1 or 2. */
  lemma {:induction false} RecognisedAxes(plane: string)
    ensures forall k :: 0 <= k < |Recognised(plane)| ==> Recognised(plane)[k] < 3
  {
    if plane != [] {
      RecognisedAxes(plane[1..]);
    }
  }

  /** No axis occurs twice. */
  predicate Distinct(s: seq<nat>) {
    forall i, j :: 0 <= i < j < |s| ==> s[i] != s[j]
  }

  /** The entry at the earliest position of `s` that repeats an earlier entry. */
  function FirstRepeat(s: seq<nat>): (r: Option<nat>)
    ensures r.Some? ==> r.value in s
  {
    if s == [] then None
    else match FirstRepeat(s[..|s| - 1])
      case Some(a) => Some(a)
      case None => if s[|s| - 1] in s[..|s| - 1] then Some(s[|s| - 1]) else None
  }

  /** The entries of `axes` that `named` leaves out, in their order. */
  function Remaining(axes: seq<nat>, named: seq<nat>): (r: seq<nat>)
    ensures |r| <= |axes|
  {
    if axes == [] then []
    else (if axes[0] in named then [] else [axes[0]]) + Remaining(axes[1..], named)
  }

  /** The axes of `[0, 1, 2]` that `named` leaves out, in increasing order:
      what `last_axis` holds once every axis in `named` is removed. */
  function Unnamed(named: seq<nat>): seq<nat> {
    Remaining([0, 1, 2], named)
  }

  /** What `plane2axes` computes, stated without its loop: the first repeated
      axis is the `remove` that fails; with no repeat, the lowest axis not
      named is appended, and naming all three leaves nothing to append. */
  function Plane2AxesSpec(plane: string): (r: Result<seq<nat>, PlaneError>)
    ensures r.Err? && r.error.NotInList? ==> r.error.axis in Recognised(plane)
    ensures r.Ok? ==> |r.value| == |Recognised(plane)| + 1 <= |plane| + 1
  {
    AxesFor(Recognised(plane))
  }

  /** The outcome for a given list of named axes: a failing `remove` names an
      axis of the list; a success extends the list by one axis. */
  function AxesFor(named: seq<nat>): (r: Result<seq<nat>, PlaneError>)
    ensures r.Err? && r.error.NotInList? ==> r.error.axis in named
    ensures r.Ok? ==> |r.value| == |named| + 1 && r.value[..|named|] == named
  {
    match FirstRepeat(named)
    case Some(a) => Err(NotInList(a))
    case None =>
      var rest := Unnamed(named);
      if rest == [] then Err(LastAxisMissing) else Ok(named + [rest[0]])
  }

  /** Python's `list.remove(x)`: drops the first occurrence of `x`, and fails
      when there is none. */
  function Remove(s: seq<nat>, x: nat): (r: Option<seq<nat>>)
    ensures r.None? <==> x !in s
    ensures r.Some? ==> |r.value| == |s| - 1
  {
    if s == [] then None
    else if s[0] == x then
      assert s == [s[0]] + s[1..];
      Some(s[1..])
    else match Remove(s[1..], x)
      case None => None
      case Some(t) =>
        assert s == [s[0]] + s[1..];
        Some([s[0]] + t)
  }

  /** The position of the first occurrence of `x` in `s`. */
  function FirstIndex(s: seq<nat>, x: nat): (k: nat)
    requires x in s
    ensures k < |s| && s[k] == x && x !in s[..k]
  {
    if s[0] == x then 0
    else
      assert x in s[1..] by { assert s == [s[0]] + s[1..]; }
      var j := FirstIndex(s[1..], x);
      assert s[..j + 1] == [s[0]] + s[1..][..j];
      j + 1
  }

  /** `Remove` drops the first occurrence of `x` and keeps every other entry
      in order. */
  lemma {:induction false} RemoveFirst(s: seq<nat>, x: nat)
    requires x in s
    ensures Remove(s, x) == Some(s[..FirstIndex(s, x)] + s[FirstIndex(s, x) + 1..])
  {
    if s[0] != x {
      var t := s[1..];
      assert x in t by { assert s == [s[0]] + t; }
      RemoveFirst(t, x);
      var j := FirstIndex(t, x);
      assert FirstIndex(s, x) == j + 1;
      assert Remove(s, x) == Some([s[0]] + (t[..j] + t[j + 1..]));
      assert s[..j + 1] == [s[0]] + t[..j];
      assert s[j + 1 + 1..] == t[j + 1..];
      assert [s[0]] + (t[..j] + t[j + 1..]) == s[..j + 1] + s[j + 1 + 1..];
    } else {
      assert FirstIndex(s, x) == 0 && Remove(s, x) == Some(s[1..]);
      assert s[..0] + s[0 + 1..] == s[1..];
    }
  }

  /** The source's loop, step by step: each recognised character is appended
      to `axes` and removed from `lastAxis`; the result is `axes` followed by
      the first axis still in `lastAxis`. */
  method Plane2Axes(plane: string) returns (r: Result<seq<nat>, PlaneError>)
    ensures r == Plane2AxesSpec(plane)
  {
    var axes: seq<nat> := [];
    var lastAxis: seq<nat> := [0, 1, 2];
    for k := 0 to |plane|
      invariant axes == Recognised(plane[..k])
      invariant FirstRepeat(axes) == None
      invariant lastAxis == Unnamed(axes)
    {
      var axis := plane[k];
      var removed: nat;
      var recognised := false;
      if axis == 'x' {
        removed, recognised := 0, true;
      }
      if axis == 'y' {
        removed, recognised := 1, true;
      }
      if axis == 'z' {
        removed, recognised := 2, true;
      }
      RecognisedStep(plane, k);
      if recognised {
        axes := axes + [removed];
        RemoveStep(plane, k, removed);
        match Remove(lastAxis, removed)
        case None =>
          return Err(NotInList(removed));
        case Some(t) =>
          lastAxis := t;
      }
    }
    assert plane[..|plane|] == plane;
    SpecWithoutRepeat(plane);
    if lastAxis == [] {
      return Err(LastAxisMissing);
    }
    return Ok(axes + [lastAxis[0]]);
  }

  lemma {:induction false} SpecWithoutRepeat(plane: string)
    requires FirstRepeat(Recognised(plane)) == None
    ensures Plane2AxesSpec(plane) ==
      var rest := Unnamed(Recognised(plane));
      if rest == [] then Err(LastAxisMissing) else Ok(Recognised(plane) + [rest[0]])
  {
  }

  /** One recognised character `x`: if its `remove` fails the whole label
      fails with it, otherwise the loop's invariant holds one character on. */
  lemma {:induction false} RemoveStep(plane: string, k: nat, x: nat)
    requires k < |plane| && AxisOf(plane[k]) == [x]
    requires FirstRepeat(Recognised(plane[..k])) == None
    ensures var named := Recognised(plane[..k]);
      match Remove(Unnamed(named), x)
      case None => Plane2AxesSpec(plane) == Err(NotInList(x))
      case Some(t) => t == Unnamed(named + [x]) && FirstRepeat(named + [x]) == None
  {
    var named := Recognised(plane[..k]);
    RecognisedStep(plane, k);
    RemoveUnnamed(named, x);
    FirstRepeatSnoc(named, x);
    if x in named {
      PrefixFixesRepeat(plane, k + 1, x);
    }
  }

  /** One more character extends the recognised axes by what it names. */
  lemma {:induction false} RecognisedStep(plane: string, k: nat)
    requires k < |plane|
    ensures Recognised(plane[..k + 1]) == Recognised(plane[..k]) + AxisOf(plane[k])
  {
    assert plane[..k + 1] == plane[..k] + [plane[k]];
    RecognisedSnoc(plane[..k], plane[k]);
  }

  /** Recognising one more character at the end. */
  lemma {:induction false} RecognisedSnoc(s: string, c: char)
    ensures Recognised(s + [c]) == Recognised(s) + AxisOf(c)
  {
    RecognisedConcat(s, [c]);
    assert [c][1..] == [];
  }

  /** Appending one entry: an earlier repeat stays first, else the new entry
      is the first repeat exactly when it was there already. */
  lemma {:induction false} FirstRepeatSnoc(s: seq<nat>, x: nat)
    ensures FirstRepeat(s + [x]) ==
      if FirstRepeat(s).Some? then FirstRepeat(s) else if x in s then Some(x) else None
  {
    assert (s + [x])[..|s|] == s;
  }

  /** Removing a not-yet-named axis from what is left gives what is left of
      the longer list of names. */
  lemma {:induction false} RemoveRemaining(axes: seq<nat>, named: seq<nat>, x: nat)
    requires Distinct(axes)
    requires x !in named && x in axes
    ensures Remove(Remaining(axes, named), x) == Some(Remaining(axes, named + [x]))
  {
    var a, t := axes[0], axes[1..];
    assert axes == [a] + t;
    assert Distinct(t) by {
      forall i, j | 0 <= i < j < |t| ensures t[i] != t[j] {
        assert t[i] == axes[i + 1] && t[j] == axes[j + 1];
      }
    }
    var rest := Remaining(t, named);
    if a == x {
      assert x !in t by {
        forall j | 0 <= j < |t| ensures t[j] != x {
          assert t[j] == axes[j + 1];
        }
      }
      RemainingIgnores(t, named, x);
      assert Remaining(axes, named) == [x] + rest;
      assert ([x] + rest)[1..] == rest;
      assert Remove([x] + rest, x) == Some(rest);
      assert x in named + [x];
      assert Remaining(axes, named + [x]) == Remaining(t, named + [x]);
    } else {
      RemoveRemaining(t, named, x);
      if a in named {
        assert a in named + [x];
        assert Remaining(axes, named) == rest;
        assert Remaining(axes, named + [x]) == Remaining(t, named + [x]);
        assert Remove(rest, x) == Some(Remaining(t, named + [x]));
      } else {
        assert a !in named + [x];
        assert Remaining(axes, named) == [a] + rest;
        assert ([a] + rest)[1..] == rest;
        assert Remaining(axes, named + [x]) == [a] + Remaining(t, named + [x]);
      }
    }
  }

  /** An axis is left exactly when it is listed and not named. */
  lemma {:induction false} RemainingMembers(axes: seq<nat>, named: seq<nat>)
    ensures forall a: nat :: a in Remaining(axes, named) <==> a in axes && a !in named
  {
    if axes != [] {
      assert axes == [axes[0]] + axes[1..];
      RemainingMembers(axes[1..], named);
    }
  }

  /** Naming an axis that is not listed changes nothing. */
  lemma {:induction false} RemainingIgnores(axes: seq<nat>, named: seq<nat>, x: nat)
    requires x !in axes
    ensures Remaining(axes, named + [x]) == Remaining(axes, named)
  {
    if axes != [] {
      assert axes == [axes[0]] + axes[1..];
      RemainingIgnores(axes[1..], named, x);
    }
  }

  /** Removing a not-yet-named axis from `Unnamed` gives `Unnamed` of the
      longer list; removing a named one fails. */
  lemma {:induction false} RemoveUnnamed(named: seq<nat>, x: nat)
    requires x < 3
    ensures x in named ==> Remove(Unnamed(named), x) == None
    ensures x !in named ==> Remove(Unnamed(named), x) == Some(Unnamed(named + [x]))
  {
    var axes: seq<nat> := [0, 1, 2];
    assert x in axes;
    if x in named {
      RemainingMembers(axes, named);
    } else {
      RemoveRemaining(axes, named, x);
    }
  }

  lemma {:induction false} PrefixFixesRepeat(plane: string, k: nat, a: nat)
    requires k <= |plane|
    requires FirstRepeat(Recognised(plane[..k])) == Some(a)
    ensures Plane2AxesSpec(plane) == Err(NotInList(a))
  {
    assert plane == plane[..k] + plane[k..];
    RecognisedConcat(plane[..k], plane[k..]);
    FirstRepeatExtends(Recognised(plane[..k]), Recognised(plane[k..]));
  }

  /** Recognising a concatenation recognises each part. */
  lemma {:induction false} RecognisedConcat(a: string, b: string)
    ensures Recognised(a + b) == Recognised(a) + Recognised(b)
  {
    if a == [] {
      assert a + b == b;
    } else {
      assert (a + b)[1..] == a[1..] + b;
      RecognisedConcat(a[1..], b);
    }
  }

  /** Once a prefix holds a repeat, appending more keeps the same first repeat. */
  lemma {:induction false} FirstRepeatExtends(s: seq<nat>, t: seq<nat>)
    requires FirstRepeat(s).Some?
    ensures FirstRepeat(s + t) == FirstRepeat(s)
  {
    if t == [] {
      assert s + t == s;
    } else {
      var t' := t[..|t| - 1];
      assert (s + t)[..|s + t| - 1] == s + t';
      FirstRepeatExtends(s, t');
    }
  }

  /** `FirstRepeat` finds nothing exactly when no axis occurs twice. */
  lemma {:induction false} FirstRepeatNoneIffDistinct(s: seq<nat>)
    ensures FirstRepeat(s) == None <==> Distinct(s)
  {
    if s != [] {
      var init, last := s[..|s| - 1], s[|s| - 1];
      FirstRepeatNoneIffDistinct(init);
      assert s == init + [last];
      if Distinct(s) {
        assert Distinct(init) by {
          forall i, j | 0 <= i < j < |init| ensures init[i] != init[j] {
            assert init[i] == s[i] && init[j] == s[j];
          }
        }
        assert last !in init by {
          forall i | 0 <= i < |init| ensures init[i] != last {
            assert init[i] == s[i];
          }
        }
      }
    }
  }

  /** `Unnamed` written out: the axes 0, 1, 2 not named, in order. */
  lemma {:induction false} UnnamedUnfold(named: seq<nat>)
    ensures Unnamed(named) ==
      (if 0 in named then [] else [0]) + (if 1 in named then [] else [1]) + (if 2 in named then [] else [2])
  {
    var axes: seq<nat> := [0, 1, 2];
    assert axes[1..] == [1, 2] && axes[1..][1..] == [2] && axes[1..][1..][1..] == [];
    assert Remaining([2], named) == (if 2 in named then [] else [2]) + Remaining([], named);
    assert Remaining([1, 2], named) == (if 1 in named then [] else [1]) + Remaining([2], named);
    assert Remaining(axes, named) == (if 0 in named then [] else [0]) + Remaining([1, 2], named);
  }

  /** Four axes below 3 cannot all differ. */
  lemma {:induction false} FourAxesRepeat(a: nat, b: nat, c: nat, d: nat)
    requires a < 3 && b < 3 && c < 3 && d < 3
    ensures a == b || a == c || a == d || b == c || b == d || c == d
  {
  }

  /** Distinct axes below 3: at most three of them, and three exactly when
      all of 0, 1 and 2 occur. */
  lemma {:induction false} DistinctAxesCount(s: seq<nat>)
    requires Distinct(s)
    requires forall k :: 0 <= k < |s| ==> s[k] < 3
    ensures |s| <= 3
    ensures |s| == 3 <==> 0 in s && 1 in s && 2 in s
  {
    if |s| > 3 {
      FourAxesRepeat(s[0], s[1], s[2], s[3]);
      assert false;
    } else if |s| == 3 {
      assert s[0] != s[1] && s[0] != s[2] && s[1] != s[2];
    } else if |s| == 2 {
      assert s[0] != s[1];
    }
  }

  /** When `plane2axes` succeeds and when it raises which exception: a
      repeated letter makes a `remove` fail; three distinct letters leave
      `last_axis` empty; anything else succeeds. */
  lemma {:induction false} Plane2AxesOutcome(plane: string)
    ensures var named := Recognised(plane);
      && (Plane2AxesSpec(plane).Ok? <==> Distinct(named) && |named| < 3)
      && (Plane2AxesSpec(plane) == Err(LastAxisMissing) <==> Distinct(named) && |named| == 3)
      && (Plane2AxesSpec(plane).Err? && Plane2AxesSpec(plane).error.NotInList? <==> !Distinct(named))
  {
    var named := Recognised(plane);
    FirstRepeatNoneIffDistinct(named);
    UnnamedUnfold(named);
    if Distinct(named) {
      RecognisedAxes(plane);
      DistinctAxesCount(named);
    }
  }

  /** A successful result lists the named axes in input order and then the
      lowest axis not named; it is one longer than the number of letters
      recognised. */
  lemma {:induction false} Plane2AxesResult(plane: string)
    requires Plane2AxesSpec(plane).Ok?
    ensures var named, r := Recognised(plane), Plane2AxesSpec(plane).value;
      && |r| == |named| + 1
      && r[..|named|] == named
      && r[|named|] < 3 && r[|named|] !in named
      && forall a: nat :: a < r[|named|] ==> a in named
  {
    var named := Recognised(plane);
    UnnamedUnfold(named);
    var r := Plane2AxesSpec(plane).value;
    assert r == named + [Unnamed(named)[0]];
    assert r[..|named|] == named;
  }

  /** A result with three entries comes from two recognised letters, so the
      plane has at least two characters. */
  lemma {:induction false} ThreeAxesNeedTwoLetters(plane: string)
    requires Plane2AxesSpec(plane).Ok? && |Plane2AxesSpec(plane).value| == 3
    ensures |plane| >= 2
  {
  }

  /** A label naming two different axes, as every caller passes. */
  predicate ValidPlane(plane: string) {
    |plane| == 2 && IsAxisLetter(plane[0]) && IsAxisLetter(plane[1]) && plane[0] != plane[1]
  }

  /** For each of the six planes the result is a permutation of the three
      axes: the two named, in order, then the third. */
  lemma {:induction false} ValidPlanePermutation(plane: string)
    requires ValidPlane(plane)
    ensures Plane2AxesSpec(plane).Ok?
    ensures var r := Plane2AxesSpec(plane).value;
      && |r| == 3
      && multiset(r) == multiset{0, 1, 2}
      && [r[0]] == AxisOf(plane[0]) && [r[1]] == AxisOf(plane[1])
      && r[2] != r[0] && r[2] != r[1]
  {
    var a, b := ValidPlaneAxes(plane);
    var r := Plane2AxesSpec(plane).value;
    assert r == [a, b, 3 - a - b];
    assert [r[0]] == [a] && [r[1]] == [b];
    ThreeAxesPermutation(r);
  }

  /** The axes a valid plane names, and its result spelt out: those two,
      then the one left over. */
  lemma {:induction false} ValidPlaneAxes(plane: string) returns (a: nat, b: nat)
    requires ValidPlane(plane)
    ensures a < 3 && b < 3 && a != b
    ensures AxisOf(plane[0]) == [a] && AxisOf(plane[1]) == [b]
    ensures Plane2AxesSpec(plane) == Ok([a, b, 3 - a - b])
  {
    a, b := AxisOf(plane[0])[0], AxisOf(plane[1])[0];
    assert AxisOf(plane[0]) == [a] && AxisOf(plane[1]) == [b];
    RecognisedPair(plane);
    assert Recognised(plane) == [a, b];
    TwoAxes(a, b);
  }

  /** Three different axes below 3 are 0, 1 and 2 in some order. */
  lemma {:induction false} ThreeAxesPermutation(r: seq<nat>)
    requires |r| == 3 && r[0] < 3 && r[1] < 3 && r[2] < 3
    requires r[0] != r[1] && r[0] != r[2] && r[1] != r[2]
    ensures multiset(r) == multiset{0, 1, 2}
  {
    assert r == [r[0], r[1], r[2]];
    assert multiset(r) == multiset{r[0], r[1], r[2]};
    assert {r[0], r[1], r[2]} == {0, 1, 2};
  }

  /** A two-letter label recognises what its two letters name. */
  lemma {:induction false} RecognisedPair(plane: string)
    requires |plane| == 2
    ensures Recognised(plane) == AxisOf(plane[0]) + AxisOf(plane[1])
  {
    RecognisedStep(plane, 0);
    RecognisedStep(plane, 1);
    assert plane[..0] == [] && plane[..2] == plane;
  }

  /** Two different axes: no `remove` fails, and the third axis is appended. */
  lemma {:induction false} TwoAxes(a: nat, b: nat)
    requires a < 3 && b < 3 && a != b
    ensures AxesFor([a, b]) == Ok([a, b, 3 - a - b])
  {
    assert [a, b][..1] == [a] && [a][..0] == [];
    assert FirstRepeat([a]) == None;
    assert FirstRepeat([a, b]) == None;
    UnnamedUnfold([a, b]);
    assert Unnamed([a, b]) == [3 - a - b];
    assert [a, b] + [3 - a - b] == [a, b, 3 - a - b];
  }

  /** A valid plane whose letters name `a` and `b` gives `(a, b, c)`, with
      `c` the third axis. */
  lemma {:induction false} PlaneExample(plane: string, a: nat, b: nat, c: nat)
    requires ValidPlane(plane) && AxisOf(plane[0]) == [a] && AxisOf(plane[1]) == [b]
    requires c < 3 && c != a && c != b
    ensures Plane2AxesSpec(plane) == Ok([a, b, c])
  {
    var a', b' := ValidPlaneAxes(plane);
    assert a' == a && b' == b;
  }

  /** The six planes one by one. */
  lemma {:induction false} SixPlanes()
    ensures Plane2AxesSpec("xy") == Ok([0, 1, 2])
    ensures Plane2AxesSpec("yx") == Ok([1, 0, 2])
    ensures Plane2AxesSpec("xz") == Ok([0, 2, 1])
    ensures Plane2AxesSpec("zx") == Ok([2, 0, 1])
    ensures Plane2AxesSpec("yz") == Ok([1, 2, 0])
    ensures Plane2AxesSpec("zy") == Ok([2, 1, 0])
  {
    PlaneExample("xy", 0, 1, 2);
    PlaneExample("yx", 1, 0, 2);
    PlaneExample("xz", 0, 2, 1);
    PlaneExample("zx", 2, 0, 1);
    PlaneExample("yz", 1, 2, 0);
    PlaneExample("zy", 2, 1, 0);
  }

  /** A character other than 'x', 'y', 'z' is skipped: inserting one anywhere
      changes neither the result nor the exception. */
  lemma {:induction false} IgnoresOtherCharacters(before: string, c: char, after: string)
    requires !IsAxisLetter(c)
    ensures Plane2AxesSpec(before + [c] + after) == Plane2AxesSpec(before + after)
  {
    RecognisedSnoc(before, c);
    assert Recognised(before + [c]) == Recognised(before);
    RecognisedConcat(before + [c], after);
    RecognisedConcat(before, after);
    assert Recognised(before + [c] + after) == Recognised(before + after);
  }

  /** Every successful result holds one to three axis indices, each below 3. */
  lemma {:induction false} Plane2AxesBounds(plane: string)
    ensures Plane2AxesSpec(plane).Ok? ==>
      var r := Plane2AxesSpec(plane).value;
      1 <= |r| <= 3 && forall k :: 0 <= k < |r| ==> r[k] < 3
  {
    if Plane2AxesSpec(plane).Ok? {
      Plane2AxesOutcome(plane);
      Plane2AxesResult(plane);
      RecognisedAxes(plane);
      var named, r := Recognised(plane), Plane2AxesSpec(plane).value;
      forall k | 0 <= k < |r| ensures r[k] < 3 {
        if k < |named| {
          assert r[k] == r[..|named|][k];
        }
      }
    }
  }
}
