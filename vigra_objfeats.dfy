/**
 * The region-feature plugin's bookkeeping around the feature extractor:
 * feature names lose their spaces, feature values are brought to one row
 * per object without the background row, the result is restricted to the
 * requested features, names are described for the user, and requests are
 * split into their global and neighbourhood parts.
 *
 * The extractor itself is not modelled: its supported names and its
 * results are inputs.
 */
module ObjFeats {
  import opened Wrappers
  import opened Builtins

  // -----------------------------------------------------------------------
  // cleanup_key

  /** `k.replace(' ', '')`. */
  function RemoveSpaces(k: string): (r: string)
    ensures ' ' !in r && |r| <= |k|
    ensures forall c :: c != ' ' ==> multiset(r)[c] == multiset(k)[c]
    decreases |k|
  {
    if k == [] then []
    else
      var rest := RemoveSpaces(k[1..]);
      assert k == [k[0]] + k[1..];
      if k[0] == ' ' then rest else [k[0]] + rest
  }

  /** Text without spaces is its own cleaned key. */
  lemma {:induction false} RemoveSpacesNoSpace(k: string)
    requires ' ' !in k
    ensures RemoveSpaces(k) == k
    decreases |k|
  {
    if k != [] {
      assert ' ' !in k[1..] by {
        forall i | 0 <= i < |k[1..]| ensures k[1..][i] != ' ' {
          assert k[1..][i] == k[i + 1];
        }
      }
      RemoveSpacesNoSpace(k[1..]);
    }
  }

  /** Cleaning works piece by piece: the kept characters stay in their order. */
  lemma {:induction false} RemoveSpacesAppend(a: string, b: string)
    ensures RemoveSpaces(a + b) == RemoveSpaces(a) + RemoveSpaces(b)
    decreases |a|
  {
    if a == [] {
      assert a + b == b;
    } else {
      assert (a + b)[0] == a[0] && (a + b)[1..] == a[1..] + b;
      RemoveSpacesAppend(a[1..], b);
    }
  }

  /** A single character is dropped exactly when it is a space. */
  lemma RemoveSpacesChar(c: char)
    ensures RemoveSpaces([c]) == if c == ' ' then [] else [c]
  {
    assert [c][1..] == [];
  }

  /** Cleaning a key twice is cleaning it once. */
  lemma RemoveSpacesIdempotent(k: string)
    ensures RemoveSpaces(RemoveSpaces(k)) == RemoveSpaces(k)
  {
    RemoveSpacesNoSpace(RemoveSpaces(k));
  }

  // -----------------------------------------------------------------------
  // cleanup_value

  /**
   * A numeric array, by its number of axes: a 0-d scalar, a vector, or its
   * entries along the first axis, each flattened in row-major order (`deep`
   * when the array has more than two axes). Arrays are rectangular: all rows
   * have the same length.
   */
  datatype NdArray =
    | Scalar(x: real)
    | Vector(xs: seq<real>)
    | Rows(rows: seq<seq<real>>, deep: bool)

  /** A two-axis array by its rows. */
  type Table = seq<seq<real>>

  /** The only element of an array with exactly one element. */
  function SoleElement(a: NdArray): Option<real> {
    match a
    case Scalar(x) => Some(x)
    case Vector(xs) => if |xs| == 1 then Some(xs[0]) else None
    case Rows(rows, _) => if |rows| == 1 && |rows[0]| == 1 then Some(rows[0][0]) else None
  }

  datatype ValueError =
    /** `val.reshape((1,))` of a global value that does not have exactly one element. */
    | NotScalar
    /** `reshape(0, -1)` of an empty array of three or more axes. */
    | AmbiguousReshape
    /** The assertion that the first axis has one entry per object (background included). */
    | WrongObjectCount(rows: nat, nObjects: nat)

  /** The two-axis array `cleanup_value` makes of a value before the object-count check. */
  function Normalised(val: NdArray, nObjects: nat, isGlobal: bool): Result<Table, ValueError> {
    if val.Scalar? || isGlobal then
      match SoleElement(val)
      case None => Failure(NotScalar)
      case Some(x) => Success(seq(nObjects, _ => [x]))
    else if val.Vector? then Success(seq(|val.xs|, i requires 0 <= i < |val.xs| => [val.xs[i]]))
    else if val.deep && |val.rows| == 0 then Failure(AmbiguousReshape)
    else Success(val.rows)
  }

  /** `cleanup_value` as a function: normalise, check the object count, drop the background row. */
  function CleanValue(val: NdArray, nObjects: nat, isGlobal: bool): Result<Table, ValueError> {
    match Normalised(val, nObjects, isGlobal)
    case Failure(e) => Failure(e)
    case Success(t) =>
      if |t| != nObjects then Failure(WrongObjectCount(|t|, nObjects))
      else if |t| == 0 then Success(t)
      else Success(t[1..])
  }

  /** `np.zeros((n, 1))` with its only column overwritten by `scalar`. */
  method FilledColumn(n: nat, scalar: real) returns (column: Table)
    ensures column == seq(n, _ => [scalar])
  {
    var a := new seq<real>[n](_ => [0.0]);
    var i := 0;
    while i < n
      invariant 0 <= i <= n
      invariant forall j :: 0 <= j < i ==> a[j] == [scalar]
    {
      a[i] := [scalar];
      i := i + 1;
    }
    column := a[..];
  }

  /** `cleanup_value`: a global value is written into a fresh column, one entry per object. */
  method CleanupValue(val: NdArray, nObjects: nat, isGlobal: bool) returns (r: Result<Table, ValueError>)
    ensures r == CleanValue(val, nObjects, isGlobal)
  {
    var t: Table;
    if val.Scalar? || isGlobal {
      var sole := SoleElement(val);
      if sole.None? {
        return Failure(NotScalar);
      }
      t := FilledColumn(nObjects, sole.value);
    } else if val.Vector? {
      t := seq(|val.xs|, i requires 0 <= i < |val.xs| => [val.xs[i]]);
    } else {
      if val.deep && |val.rows| == 0 {
        return Failure(AmbiguousReshape);
      }
      t := val.rows;
    }
    if |t| != nObjects {
      return Failure(WrongObjectCount(|t|, nObjects));
    }
    if |t| == 0 {
      return Success(t);
    }
    return Success(t[1..]);
  }

  /**
   * A cleaned value has one row per object except the background, and the
   * errors are exactly: a global value without exactly one element, an empty
   * array of three or more axes, a first axis without one entry per object.
   * A global or 0-d value is repeated as the only column of every row; a
   * vector becomes a column; rows are kept; in each case without the
   * background row.
   */
  lemma CleanValueShape(val: NdArray, nObjects: nat, isGlobal: bool)
    ensures var r := CleanValue(val, nObjects, isGlobal);
      && (r == Failure(NotScalar) <==> (val.Scalar? || isGlobal) && SoleElement(val).None?)
      && (r == Failure(AmbiguousReshape) <==> !val.Scalar? && !isGlobal && val.Rows? && val.deep && |val.rows| == 0)
      && (r.Failure? && r.error.WrongObjectCount? <==>
            && !((val.Scalar? || isGlobal) && SoleElement(val).None?)
            && !(!val.Scalar? && !isGlobal && val.Rows? && val.deep && |val.rows| == 0)
            && (val.Vector? && !isGlobal ==> |val.xs| != nObjects)
            && (val.Rows? && !isGlobal ==> |val.rows| != nObjects)
            && !val.Scalar? && !isGlobal)
      && (r.Success? ==> |r.value| == (if nObjects == 0 then 0 else nObjects - 1))
      && (r.Success? && (val.Scalar? || isGlobal) ==>
            forall i :: 0 <= i < |r.value| ==> r.value[i] == [SoleElement(val).value])
      && (r.Success? && val.Vector? && !isGlobal ==>
            forall i :: 0 <= i < |r.value| ==> r.value[i] == [val.xs[i + 1]])
      && (r.Success? && val.Rows? && !isGlobal ==>
            r.value == if |val.rows| == 0 then [] else val.rows[1..])
  {
  }

  // -----------------------------------------------------------------------
  // cleanup

  /** A feature dictionary as the extractor yields its items, in iteration order. */
  type RawFeatures = seq<(string, NdArray)>

  /**
   * The dictionary comprehension of `cleanup`: every value is cleaned (a
   * global one is one whose raw key mentions "Global"); a later item wins
   * over an earlier one with the same cleaned key; the first failing value
   * raises.
   */
  function CleanAll(d: RawFeatures, nObjects: nat): (r: Result<map<string, Table>, ValueError>)
    decreases |d|
  {
    if d == [] then Success(map[])
    else
      var init := d[..|d| - 1];
      match CleanAll(init, nObjects)
      case Failure(e) => Failure(e)
      case Success(m) =>
        var (k, v) := d[|d| - 1];
        match CleanValue(v, nObjects, Contains(k, "Global"))
        case Failure(e) => Failure(e)
        case Success(cv) => Success(m[RemoveSpaces(k) := cv])
  }

  /** `cleanup`: the cleaned dictionary restricted to the requested features. */
  function Cleanup(d: RawFeatures, nObjects: nat, features: set<string>): (r: Result<map<string, Table>, ValueError>)
  {
    match CleanAll(d, nObjects)
    case Failure(e) => Failure(e)
    case Success(m) => Success(map k | k in m.Keys * features :: m[k])
  }

  /** Whether the value of item `i` cleans without error. */
  predicate CleansAt(d: RawFeatures, nObjects: nat, i: nat)
    requires i < |d|
  {
    CleanValue(d[i].1, nObjects, Contains(d[i].0, "Global")).Success?
  }

  /** The cleaning fails exactly when some value does, and then with the first such value's error. */
  lemma {:induction false} CleanAllFailure(d: RawFeatures, nObjects: nat)
    ensures CleanAll(d, nObjects).Success? <==> forall i :: 0 <= i < |d| ==> CleansAt(d, nObjects, i)
    ensures CleanAll(d, nObjects).Failure? ==>
      (exists i :: 0 <= i < |d|
         && (forall j :: 0 <= j < i ==> CleansAt(d, nObjects, j))
         && CleanValue(d[i].1, nObjects, Contains(d[i].0, "Global")) == Failure(CleanAll(d, nObjects).error))
    decreases |d|
  {
    if d != [] {
      var n := |d| - 1;
      var init := d[..n];
      CleanAllFailure(init, nObjects);
      assert forall i :: 0 <= i < n ==> init[i] == d[i];
      assert forall i :: 0 <= i < n ==> (CleansAt(init, nObjects, i) <==> CleansAt(d, nObjects, i));
      var ri := CleanAll(init, nObjects);
      if ri.Failure? {
        var i :| 0 <= i < n
          && (forall j :: 0 <= j < i ==> CleansAt(init, nObjects, j))
          && CleanValue(init[i].1, nObjects, Contains(init[i].0, "Global")) == Failure(ri.error);
        assert !CleansAt(d, nObjects, i);
        assert CleanAll(d, nObjects) == Failure(ri.error);
        assert CleanValue(d[i].1, nObjects, Contains(d[i].0, "Global")) == Failure(CleanAll(d, nObjects).error);
      } else if !CleansAt(d, nObjects, n) {
        assert CleanAll(d, nObjects).Failure?;
        assert CleanValue(d[n].1, nObjects, Contains(d[n].0, "Global")) == Failure(CleanAll(d, nObjects).error);
      } else {
        assert CleanAll(d, nObjects).Success?;
      }
    }
  }

  /** The cleaned dictionary has exactly the cleaned keys. */
  lemma {:induction false} CleanAllKeys(d: RawFeatures, nObjects: nat)
    requires CleanAll(d, nObjects).Success?
    ensures CleanAll(d, nObjects).value.Keys == set i | 0 <= i < |d| :: RemoveSpaces(d[i].0)
    decreases |d|
  {
    if d != [] {
      var n := |d| - 1;
      var init := d[..n];
      CleanAllKeys(init, nObjects);
      var m := CleanAll(init, nObjects).value;
      var keys := CleanAll(d, nObjects).value.Keys;
      assert keys == m.Keys + {RemoveSpaces(d[n].0)};
      forall x | x in keys ensures x in set i | 0 <= i < |d| :: RemoveSpaces(d[i].0) {
        if x != RemoveSpaces(d[n].0) {
          var i :| 0 <= i < n && RemoveSpaces(init[i].0) == x;
          assert init[i] == d[i];
        }
      }
      forall i | 0 <= i < |d| ensures RemoveSpaces(d[i].0) in keys {
        if i < n {
          assert init[i] == d[i];
          assert RemoveSpaces(init[i].0) in m.Keys;
        }
      }
    }
  }

  /** Each cleaned key holds the cleaned value of the last item with that key. */
  lemma {:induction false} CleanAllLastWins(d: RawFeatures, nObjects: nat, i: nat)
    requires CleanAll(d, nObjects).Success? && i < |d|
    requires forall j :: i < j < |d| ==> RemoveSpaces(d[j].0) != RemoveSpaces(d[i].0)
    ensures CleanValue(d[i].1, nObjects, Contains(d[i].0, "Global")).Success?
    ensures RemoveSpaces(d[i].0) in CleanAll(d, nObjects).value
    ensures CleanAll(d, nObjects).value[RemoveSpaces(d[i].0)] == CleanValue(d[i].1, nObjects, Contains(d[i].0, "Global")).value
    decreases |d|
  {
    var n := |d| - 1;
    var init := d[..n];
    if i < n {
      assert init[i] == d[i];
      forall j | i < j < |init| ensures RemoveSpaces(init[j].0) != RemoveSpaces(init[i].0) {
        assert init[j] == d[j];
      }
      CleanAllLastWins(init, nObjects, i);
    }
  }

  /** The keys of `cleanup`'s result are the cleaned keys that were requested. */
  lemma CleanupKeys(d: RawFeatures, nObjects: nat, features: set<string>)
    ensures Cleanup(d, nObjects, features).Success? ==>
      Cleanup(d, nObjects, features).value.Keys == (set i | 0 <= i < |d| :: RemoveSpaces(d[i].0)) * features
    ensures Cleanup(d, nObjects, features).Success? <==> CleanAll(d, nObjects).Success?
  {
    CleanAllFailure(d, nObjects);
    if CleanAll(d, nObjects).Success? {
      CleanAllKeys(d, nObjects);
    }
  }

  // -----------------------------------------------------------------------
  // find_properties

  /** The keys of a feature's property dictionary: 'margin', 'tooltip', 'advanced', 'displaytext', 'detailtext'. */
  datatype PropKey = Margin | Tooltip | Advanced | DisplayText | DetailText

  datatype PropValue = Text(text: string) | Flag(flag: bool) | Number(number: int)

  const CoordNote: string := ", computed from object pixel coordinates"
  const RawNote: string := ", computed from raw pixel values"
  const LocalSuffix: string := " in neighborhood"
  const CountDetail: string := "Size in pixels as we usually compute it. Just that. Nothing else."

  /** The tooltip's description before its notes: the first matching rule, else the name itself. */
  function BaseTooltip(name: string): string {
    if Contains(name, "Central<PowerSum<") then "Unnormalized central moment: Sum_i{(X_i-object_mean)^n}"
    else if Contains(name, "PowerSum<") then "Unnormalized moment: Sum_i{(X_i)^n}"
    else if Contains(name, "Minimum") then "Minimum"
    else if Contains(name, "Maximum") then "Maximum"
    else if Contains(name, "Variance") then "Variance"
    else if Contains(name, "Skewness") then "Skewness"
    else if Contains(name, "Kurtosis") then "Kurtosis"
    else name
  }

  /** An optional note. */
  function Note(present: bool, text: string): string {
    if present then text else ""
  }

  /** A central moment's name is also a moment's name. */
  lemma CentralMomentIsMoment(name: string)
    requires Contains(name, "Central<PowerSum<")
    ensures Contains(name, "PowerSum<")
  {
    var s := "Central<PowerSum<";
    assert s[8..] == "PowerSum<";
    assert OccursAt(s, "PowerSum<", 8);
    ContainsIff(s, "PowerSum<");
    ContainsTransitive(name, s, "PowerSum<");
  }

  /** `if present: tooltip = tooltip + text`. */
  function AppendIf(tooltip: string, present: bool, text: string): (r: string)
    ensures r == tooltip + Note(present, text)
  {
    if present then tooltip + text else tooltip
  }

  /** `find_properties`: tooltip, advanced flag, display and detail text of a feature name. */
  function FindProperties(name: string): map<PropKey, PropValue> {
    var displaytext := if name == "Count" then "Size in pixels" else name;
    var detailtext := if name == "Count" then CountDetail else name;
    var central := Contains(name, "Central<PowerSum<");
    var moment := Contains(name, "PowerSum<");
    var t0 := BaseTooltip(name);
    var advanced := central || moment;
    var pca := Contains(name, "Principal<");
    var t1 := AppendIf(t0, pca, ", projected onto PCA eigenvectors");
    var advanced := advanced || pca;
    var coord := Contains(name, "Coord<");
    var t2 := AppendIf(t1, coord, CoordNote);
    var t3 := AppendIf(t2, !coord, RawNote);
    var divide := Contains(name, "DivideByCount<");
    var t4 := AppendIf(t3, divide, ", divided by the number of pixels");
    var advanced := advanced || divide;
    var tooltip := AppendIf(t4, Contains(name, LocalSuffix), ", as defined by neighborhood size below");
    map[Tooltip := Text(tooltip), Advanced := Flag(advanced),
        DisplayText := Text(displaytext), DetailText := Text(detailtext)]
  }

  /**
   * The four properties of a name: display and detail text are the name
   * itself except for `Count`; the name is advanced exactly when it is a
   * moment, a PCA projection or divided by the count (a central moment is a
   * moment); the tooltip carries exactly one of the two coordinate notes,
   * after the PCA note and before the per-pixel and neighbourhood notes.
   */
  lemma FindPropertiesEntries(name: string)
    ensures var props := FindProperties(name);
      && props.Keys == {Tooltip, Advanced, DisplayText, DetailText}
      && (name != "Count" ==> props[DisplayText] == Text(name) && props[DetailText] == Text(name))
      && (name == "Count" ==> props[DisplayText] == Text("Size in pixels") && props[DetailText] == Text(CountDetail))
      && props[Advanced] == Flag(Contains(name, "PowerSum<") || Contains(name, "Principal<") || Contains(name, "DivideByCount<"))
      && props[Tooltip] == Text(BaseTooltip(name)
                                + Note(Contains(name, "Principal<"), ", projected onto PCA eigenvectors")
                                + Note(Contains(name, "Coord<"), CoordNote)
                                + Note(!Contains(name, "Coord<"), RawNote)
                                + Note(Contains(name, "DivideByCount<"), ", divided by the number of pixels")
                                + Note(Contains(name, LocalSuffix), ", as defined by neighborhood size below"))
  {
    if Contains(name, "Central<PowerSum<") {
      CentralMomentIsMoment(name);
    }
  }

  // -----------------------------------------------------------------------
  // The plugin: availableFeatures, compute_global, compute_local

  /** The features that are also offered on a neighbourhood of each object. */
  const LocalFeatures: set<string> :=
    {"Mean", "Variance", "Skewness", "Kurtosis", "Histogram", "Sum", "Covariance", "Minimum", "Maximum"}

  /** The neighbourhood names `x + " in neighborhood"` of the local features. */
  function LocalNames(): (r: set<string>)
    ensures forall x :: x in LocalFeatures ==> x + LocalSuffix in r
    ensures forall n :: n in r ==> exists x :: x in LocalFeatures && n == x + LocalSuffix
  {
    set x | x in LocalFeatures :: x + LocalSuffix
  }

  /** What `availableFeatures` stores for one name: a zero margin for neighbourhood names, then its properties. */
  function FeatureEntry(f: string): map<PropKey, PropValue> {
    (if Contains(f, LocalSuffix) then map[Margin := Number(0)] else map[]) + FindProperties(f)
  }

  /** The supported names without their spaces. */
  function CleanedNames(supported: seq<string>): (r: set<string>)
    ensures forall n :: n in r ==> ' ' !in n
  {
    set i | 0 <= i < |supported| :: RemoveSpaces(supported[i])
  }

  /** The neighbourhood names of the supported local features. */
  function NeighbourhoodNames(supported: seq<string>): set<string> {
    set x | x in CleanedNames(supported) * LocalFeatures :: x + LocalSuffix
  }

  /** The names `availableFeatures` offers. */
  function OfferedNames(supported: seq<string>): set<string> {
    CleanedNames(supported) + NeighbourhoodNames(supported)
  }

  /** The word before the first space (`x.split(' ')[0]`). */
  function FirstWord(x: string): (r: string)
    ensures |r| <= |x| && r == x[..|r|] && ' ' !in r
    ensures |r| < |x| ==> x[|r|] == ' '
    decreases |x|
  {
    if x == [] || x[0] == ' ' then []
    else
      var rest := FirstWord(x[1..]);
      [x[0]] + rest
  }

  lemma {:induction false} FirstWordOfSpaced(w: string, tail: string)
    requires ' ' !in w && |tail| > 0 && tail[0] == ' '
    ensures FirstWord(w + tail) == w
    decreases |w|
  {
    if w != [] {
      assert (w + tail)[1..] == w[1..] + tail;
      assert ' ' !in w[1..] by {
        forall i | 0 <= i < |w[1..]| ensures w[1..][i] != ' ' {
          assert w[1..][i] == w[i + 1];
        }
      }
      FirstWordOfSpaced(w[1..], tail);
    } else {
      assert (w + tail)[0] == ' ';
    }
  }

  /** `compute_local`'s request: the neighbourhood names asked for, reduced to their first word. */
  function LocalRequest(requested: set<string>): set<string> {
    set x | x in requested && x in LocalNames() :: FirstWord(x)
  }

  /** The local request is exactly the local features whose neighbourhood names were asked for. */
  lemma LocalRequestIsLocal(requested: set<string>)
    ensures LocalRequest(requested) == set f | f in LocalFeatures && f + LocalSuffix in requested
  {
    forall f | f in LocalFeatures ensures FirstWord(f + LocalSuffix) == f {
      assert ' ' !in f;
      FirstWordOfSpaced(f, LocalSuffix);
    }
  }

  class VigraObjFeats {
    /** 2 or 3 once `compute_global` has seen the data; `None` before. */
    var ndim: Option<int>

    constructor ()
      ensures ndim.None?
    {
      ndim := None;
    }

    /**
     * `availableFeatures` on the names the extractor supports: they lose
     * their spaces, the local ones also appear with the neighbourhood
     * suffix, and every name gets its entry.
     */
    method AvailableFeatures(supported: seq<string>) returns (result: map<string, map<PropKey, PropValue>>)
      ensures result.Keys == OfferedNames(supported)
      ensures forall f :: f in result ==> result[f] == FeatureEntry(f)
    {
      var names := CleanedNames(supported);
      var local := names * LocalFeatures;
      var offered := names + set x | x in local :: x + LocalSuffix;
      result := DescribeAll(offered);
    }

    /** The loop of `availableFeatures` that fills each name's (initially empty) entry. */
    method DescribeAll(offered: set<string>) returns (result: map<string, map<PropKey, PropValue>>)
      ensures result.Keys == offered
      ensures forall f :: f in result ==> result[f] == FeatureEntry(f)
    {
      result := map[];
      var todo := offered;
      while todo != {}
        invariant todo <= offered
        invariant forall f :: f in result <==> f in offered && f !in todo
        invariant forall f :: f in result ==> result[f] == FeatureEntry(f)
        decreases |todo|
      {
        var f :| f in todo;
        var entry := Describe(f);
        result := result[f := entry];
        todo := todo - {f};
      }
      assert result.Keys == offered;
    }

    /** One name's entry: a zero margin for a neighbourhood name, then its properties. */
    method Describe(f: string) returns (entry: map<PropKey, PropValue>)
      ensures entry == FeatureEntry(f)
    {
      entry := map[];
      if Contains(f, LocalSuffix) {
        entry := entry[Margin := Number(0)];
      }
      entry := entry + FindProperties(f);
    }

    /** `compute_global`: the extractor is asked for everything but the neighbourhood names; `ndim` follows the z extent. */
    method ComputeGlobal(requested: set<string>, nZ: nat) returns (request: set<string>)
      modifies this
      ensures ndim == Some(if nZ > 1 then 3 else 2)
      ensures forall f :: f in request <==> f in requested && forall x :: x in LocalFeatures ==> f != x + LocalSuffix
    {
      request := requested - LocalNames();
      if nZ > 1 {
        ndim := Some(3);
      } else {
        ndim := Some(2);
      }
    }
  }

  /**
   * Exactly the neighbourhood names carry a margin in `availableFeatures`:
   * the cleaned names have no space, and the suffix starts with one.
   */
  lemma MarginExactlyForNeighbourhood(supported: seq<string>, f: string)
    requires f in OfferedNames(supported)
    ensures Margin in FeatureEntry(f) <==> f in NeighbourhoodNames(supported)
    ensures Margin in FeatureEntry(f) ==> FeatureEntry(f)[Margin] == Number(0)
  {
    FeatureEntryMargin(f);
    assert LocalSuffix[0] == ' ';
    if f in NeighbourhoodNames(supported) {
      var x :| x in CleanedNames(supported) * LocalFeatures && f == x + LocalSuffix;
      ContainsSuffix(x, LocalSuffix);
    } else {
      assert f in CleanedNames(supported);
      NoSpaceNoSpacedSub(f, LocalSuffix, 0);
    }
  }

  /** An entry has a margin exactly when its name contains the suffix, and the margin is 0. */
  lemma FeatureEntryMargin(f: string)
    ensures Margin in FeatureEntry(f) <==> Contains(f, LocalSuffix)
    ensures Margin in FeatureEntry(f) ==> FeatureEntry(f)[Margin] == Number(0)
  {
    assert Margin !in FindProperties(f);
  }

}
