/**
 * A pandas DataFrame as the pipeline uses it: labelled columns of equal
 * height whose cells hold arrays, per-day metric vectors or dates. `Table`
 * is its value; `Frame` is the mutable object that `load_model_data` and
 * `posprocessDataframe` update in place.
 */
module Frames {

  import opened Wrappers
  import opened Grid

  /** One cell of a result table. */
  datatype Cell =
    | Numbers(flat: seq<real>)   // array-like value `np.array(x, dtype=float)` accepts, elements in row-major order
    | Uncoercible                // ragged nesting, text or another value that is not a float array
    | Mat(m: Matrix)             // a 2-D float array (rows of equal length)
    | Vec(v: seq<real>)          // a 1-D float array (one value per forecast day)
    | Date(hours: int)           // a calendar date, as hours since the epoch at midnight
    | Timestamp(hours: int)      // a point in time, as hours since the epoch

  /**
   * `np.array(cell, dtype=float)`, flattened in row-major order; `None` where
   * numpy raises. A 2-D array holds rows × columns values, and a ragged
   * nesting of rows is refused.
   */
  function AsFloats(c: Cell): (r: Option<seq<real>>)
    ensures c.Mat? && c.m != [] ==> (r.Some? <==> Rectangular(c.m))
    ensures c.Mat? && r.Some? && c.m != [] ==> |r.value| == |c.m| * Width(c.m)
  {
    match c
    case Numbers(flat) => Some(flat)
    case Mat(m) =>
      if m == [] then Some([])
      else if Rectangular(m) then FlattenLength(m, |m|, Width(m)); Some(Flatten(m))
      else None
    case Vec(v) => Some(v)
    case _ => None
  }

  /** Column labels, the columns in label order, and the number of rows. */
  datatype Table = Table(labels: seq<string>, columns: seq<seq<Cell>>, height: nat)

  predicate WellFormed(t: Table)
  {
    |t.labels| == |t.columns| && forall i :: 0 <= i < |t.columns| ==> |t.columns[i]| == t.height
  }

  // ------------------------------------------------------ label stripping

  /** Python's `str.isspace` for one character. */
  predicate IsSpace(c: char)
  {
    c == ' ' || ('\t' <= c <= '\r') || ('\U{1C}' <= c <= '\U{1F}') || c == '\U{85}' || c == '\U{A0}'
    || c == '\U{1680}' || ('\U{2000}' <= c <= '\U{200A}') || c == '\U{2028}' || c == '\U{2029}'
    || c == '\U{202F}' || c == '\U{205F}' || c == '\U{3000}'
  }

  /** `str.lstrip()`: a suffix of the input. */
  function StripLeft(s: string): (r: string)
    ensures |r| <= |s| && r == s[|s| - |r|..]
  {
    if s != [] && IsSpace(s[0]) then StripLeft(s[1..]) else s
  }

  /** `str.rstrip()`: a prefix of the input. */
  function StripRight(s: string): (r: string)
    ensures |r| <= |s| && r == s[..|r|]
  {
    if s != [] && IsSpace(s[|s| - 1]) then StripRight(s[..|s| - 1]) else s
  }

  /** `lstrip` leaves no whitespace at the front. */
  lemma {:induction false} StripLeftStart(s: string)
    ensures StripLeft(s) != [] ==> !IsSpace(StripLeft(s)[0])
  {
    if s != [] && IsSpace(s[0]) {
      StripLeftStart(s[1..]);
    }
  }

  /** `lstrip` removes only whitespace. */
  lemma {:induction false} StripLeftRemoves(s: string)
    ensures forall i :: 0 <= i < |s| - |StripLeft(s)| ==> IsSpace(s[i])
  {
    if s != [] && IsSpace(s[0]) {
      StripLeftRemoves(s[1..]);
      forall i | 1 <= i < |s| - |StripLeft(s)|
        ensures IsSpace(s[i])
      {
        assert s[i] == s[1..][i - 1];
      }
    }
  }

  /** `rstrip` leaves no whitespace at the end. */
  lemma {:induction false} StripRightEnd(s: string)
    ensures StripRight(s) != [] ==> !IsSpace(StripRight(s)[|StripRight(s)| - 1])
  {
    if s != [] && IsSpace(s[|s| - 1]) {
      StripRightEnd(s[..|s| - 1]);
    }
  }

  /** `rstrip` removes only whitespace. */
  lemma {:induction false} StripRightRemoves(s: string)
    ensures forall i :: |StripRight(s)| <= i < |s| ==> IsSpace(s[i])
  {
    if s != [] && IsSpace(s[|s| - 1]) {
      StripRightRemoves(s[..|s| - 1]);
      forall i | |StripRight(s)| <= i < |s| - 1
        ensures IsSpace(s[i])
      {
        assert s[i] == s[..|s| - 1][i];
      }
    }
  }

  /** Python's `str.strip()`. */
  function Strip(s: string): (r: string)
    ensures |r| <= |s|
    ensures s == [] || (!IsSpace(s[0]) && !IsSpace(s[|s| - 1])) ==> r == s
  {
    StripRight(StripLeft(s))
  }

  /** How many characters `Strip` removes from the front of `s`. */
  function LeadingSpaces(s: string): nat
  {
    |s| - |StripLeft(s)|
  }

  /** `Strip` keeps one contiguous slice of its input. */
  lemma StripSlice(s: string)
    ensures LeadingSpaces(s) + |Strip(s)| <= |s|
    ensures Strip(s) == s[LeadingSpaces(s)..LeadingSpaces(s) + |Strip(s)|]
  {
    var l := StripLeft(s);
    var r := StripRight(l);
    var a := LeadingSpaces(s);
    PrefixOfSuffix(s, a, |r|);
  }

  lemma PrefixOfSuffix<T>(s: seq<T>, a: nat, k: nat)
    requires a + k <= |s|
    ensures s[a..][..k] == s[a..a + k]
  {
  }

  /** What `Strip` removes on either side of that slice is whitespace. */
  lemma StripRemovesSpaces(s: string)
    ensures forall i :: 0 <= i < LeadingSpaces(s) ==> IsSpace(s[i])
    ensures forall i :: LeadingSpaces(s) + |Strip(s)| <= i < |s| ==> IsSpace(s[i])
  {
    var l := StripLeft(s);
    var r := StripRight(l);
    var a := LeadingSpaces(s);
    StripLeftRemoves(s);
    StripRightRemoves(l);
    assert l == s[a..];
    forall i | a + |r| <= i < |s|
      ensures IsSpace(s[i])
    {
      assert s[i] == l[i - a];
    }
  }

  /** `Strip` leaves no whitespace at either end. */
  lemma StripEnds(s: string)
    ensures Strip(s) != [] ==> !IsSpace(Strip(s)[0]) && !IsSpace(Strip(s)[|Strip(s)| - 1])
  {
    var l := StripLeft(s);
    var r := StripRight(l);
    StripLeftStart(s);
    StripRightEnd(l);
    if r != [] {
      assert l[0] == r[0];
    }
  }

  /** Stripping twice is stripping once. */
  lemma StripIdempotent(s: string)
    ensures Strip(Strip(s)) == Strip(s)
  {
    var r := Strip(s);
    StripEnds(s);
    if r != [] {
      assert StripLeft(r) == r;
      assert StripRight(r) == r;
    }
  }

  /** `df.columns.str.strip()`. */
  function StripAll(labels: seq<string>): (r: seq<string>)
    ensures |r| == |labels|
    ensures forall i :: 0 <= i < |labels| ==> r[i] == Strip(labels[i])
  {
    seq(|labels|, i requires 0 <= i < |labels| => Strip(labels[i]))
  }

  function StripLabels(t: Table): (r: Table)
    ensures WellFormed(t) ==> WellFormed(r)
    ensures |r.labels| == |t.labels| && r.columns == t.columns && r.height == t.height
  {
    Table(StripAll(t.labels), t.columns, t.height)
  }

  /** Stripping the labels twice is stripping them once. */
  lemma StripLabelsIdempotent(t: Table)
    ensures StripLabels(StripLabels(t)) == StripLabels(t)
  {
    forall i | 0 <= i < |t.labels|
      ensures Strip(Strip(t.labels[i])) == Strip(t.labels[i])
    {
      StripIdempotent(t.labels[i]);
    }
    assert StripAll(StripAll(t.labels)) == StripAll(t.labels);
  }

  // -------------------------------------------------- column access by label

  /** The position of the first column labelled `name`. */
  function Find(labels: seq<string>, name: string): (r: Option<nat>)
    ensures r.None? <==> name !in labels
    ensures r.Some? ==> r.value < |labels| && labels[r.value] == name && name !in labels[..r.value]
  {
    if labels == [] then None
    else if labels[0] == name then Some(0)
    else match Find(labels[1..], name)
      case None => None
      case Some(i) =>
        assert labels[..i + 1] == [labels[0]] + labels[1..][..i];
        Some(i + 1)
  }

  /** The first position of a label is the only one with nothing equal before it. */
  lemma FindUnique(labels: seq<string>, name: string, i: nat)
    requires i < |labels| && labels[i] == name && name !in labels[..i]
    ensures Find(labels, name) == Some(i)
  {
    var j := Find(labels, name).value;
    assert forall k :: 0 <= k < i ==> labels[..i][k] == labels[k];
    assert forall k :: 0 <= k < j ==> labels[..j][k] == labels[k];
  }

  /** `df[name]`: the column labelled `name`, or `None` (a `KeyError`) when there is none. */
  function Get(t: Table, name: string): (r: Option<seq<Cell>>)
    ensures |t.labels| == |t.columns| ==> (r.None? <==> name !in t.labels)
    ensures WellFormed(t) && r.Some? ==> |r.value| == t.height
  {
    match Find(t.labels, name)
    case None => None
    case Some(i) => if i < |t.columns| then Some(t.columns[i]) else None
  }

  /** `df[name] = cells`: replaces the column labelled `name`, or appends one. */
  function WithColumn(t: Table, name: string, cells: seq<Cell>): (r: Table)
    requires WellFormed(t) && |cells| == t.height
    ensures WellFormed(r) && r.height == t.height
  {
    match Find(t.labels, name)
    case Some(i) => Table(t.labels, t.columns[i := cells], t.height)
    case None => Table(t.labels + [name], t.columns + [cells], t.height)
  }

  /** After `df[name] = cells`, `df[name]` is `cells` and every other label reads as before. */
  lemma GetWithColumn(t: Table, name: string, cells: seq<Cell>, other: string)
    requires WellFormed(t) && |cells| == t.height
    ensures Get(WithColumn(t, name, cells), name) == Some(cells)
    ensures other != name ==> Get(WithColumn(t, name, cells), other) == Get(t, other)
  {
    var r := WithColumn(t, name, cells);
    match Find(t.labels, name)
    case Some(i) =>
      assert r.labels == t.labels;
    case None =>
      FindUnique(r.labels, name, |t.labels|);
      assert r.labels[..|t.labels|] == t.labels;
      if other != name {
        match Find(t.labels, other)
        case Some(j) =>
          assert r.labels[..j] == t.labels[..j];
          FindUnique(r.labels, other, j);
        case None =>
          assert other !in r.labels;
      }
  }

  // ------------------------------------------------------- the mutable frame

  class Frame {
    var labels: seq<string>
    var columns: seq<seq<Cell>>
    var height: nat

    ghost predicate Valid()
      reads this
    {
      WellFormed(Value())
    }

    function Value(): Table
      reads this
    {
      Table(labels, columns, height)
    }

    constructor (t: Table)
      requires WellFormed(t)
      ensures Valid() && Value() == t
    {
      labels, columns, height := t.labels, t.columns, t.height;
    }

    /** `df[name]`. */
    function Column(name: string): Option<seq<Cell>>
      reads this
    {
      Get(Value(), name)
    }

    /** `df.columns = df.columns.str.strip()`. */
    method StripColumnLabels()
      requires Valid()
      modifies this
      ensures Valid() && Value() == StripLabels(old(Value()))
    {
      labels := StripAll(labels);
    }

    /** `df[name] = cells`. */
    method SetColumn(name: string, cells: seq<Cell>)
      requires Valid() && |cells| == height
      modifies this
      ensures Valid() && Value() == WithColumn(old(Value()), name, cells)
    {
      match Find(labels, name)
      case Some(i) =>
        columns := columns[i := cells];
      case None =>
        labels, columns := labels + [name], columns + [cells];
    }
  }
}
