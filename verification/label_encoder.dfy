/**
 * A fitted label encoder over strings. Fitting keeps the distinct values of
 * a column in ascending order (the classes); a value's code is its position
 * among the classes. Transforming a column succeeds only when every value
 * in it is a class.
 */
module LabelEncoder {
  import opened Wrappers

  /** Strict lexicographic order on strings, character by character. */
  predicate Below(a: string, b: string)
    decreases |a|
  {
    |b| > 0 && (|a| == 0 || a[0] < b[0] || (a[0] == b[0] && Below(a[1..], b[1..])))
  }

  lemma {:induction false} BelowIrreflexive(a: string)
    ensures !Below(a, a)
    decreases |a|
  {
    if |a| > 0 {
      BelowIrreflexive(a[1..]);
    }
  }

  lemma {:induction false} BelowTransitive(a: string, b: string, c: string)
    requires Below(a, b) && Below(b, c)
    ensures Below(a, c)
    decreases |a|
  {
    if |a| > 0 && a[0] == b[0] && b[0] == c[0] {
      BelowTransitive(a[1..], b[1..], c[1..]);
    }
  }

  lemma {:induction false} BelowTotal(a: string, b: string)
    requires a != b
    ensures Below(a, b) || Below(b, a)
    decreases |a|
  {
    if |a| > 0 && |b| > 0 && a[0] == b[0] {
      assert a == [a[0]] + a[1..] && b == [b[0]] + b[1..];
      BelowTotal(a[1..], b[1..]);
    }
  }

  /** Every earlier class lies strictly below every later one. */
  ghost predicate StrictlySorted(v: seq<string>) {
    forall i, j :: 0 <= i < j < |v| ==> Below(v[i], v[j])
  }

  /** Adds `x` to ascending classes `v`, keeping them ascending and distinct. */
  function Insert(x: string, v: seq<string>): (r: seq<string>)
    requires StrictlySorted(v)
    ensures StrictlySorted(r)
    ensures forall y :: y in r <==> y == x || y in v
  {
    if |v| == 0 then [x]
    else if x == v[0] then v
    else if Below(x, v[0]) then
      assert forall j :: 0 < j < |v| ==> Below(x, v[j]) by {
        forall j | 0 < j < |v| {
          BelowTransitive(x, v[0], v[j]);
        }
      }
      [x] + v
    else
      BelowTotal(x, v[0]);
      var tail := Insert(x, v[1..]);
      assert forall y :: y in v[1..] ==> Below(v[0], y);
      [v[0]] + tail
  }

  /** `LabelEncoder.fit`: the distinct values of the column, ascending. */
  function Fit(column: seq<string>): (v: seq<string>)
    ensures StrictlySorted(v)
    ensures forall y :: y in v <==> y in column
  {
    if |column| == 0 then []
    else
      var init := column[..|column| - 1];
      assert column == init + [column[|column| - 1]];
      Insert(column[|column| - 1], Fit(init))
  }

  /** The code of a class: its position among the classes. */
  function Code(v: seq<string>, x: string): (i: nat)
    requires x in v
    ensures i < |v| && v[i] == x
  {
    if v[0] == x then 0 else 1 + Code(v[1..], x)
  }

  /** True when every value of the column is a class of `v`. */
  predicate Known(v: seq<string>, column: seq<string>) {
    forall i :: 0 <= i < |column| ==> column[i] in v
  }

  /** `LabelEncoder.transform`: the codes of the column, or failure on an unseen value. */
  function Transform(v: seq<string>, column: seq<string>): (r: Option<seq<int>>)
    ensures r.Some? <==> Known(v, column)
    ensures r.Some? ==> |r.value| == |column|
    ensures r.Some? ==> forall i :: 0 <= i < |column| ==> 0 <= r.value[i] < |v| && v[r.value[i]] == column[i]
  {
    if Known(v, column) then Some(seq(|column|, i requires 0 <= i < |column| => Code(v, column[i])))
    else None
  }

  /** `LabelEncoder.inverse_transform`: the classes the codes stand for. */
  function Inverse(v: seq<string>, codes: seq<int>): (column: seq<string>)
    requires forall i :: 0 <= i < |codes| ==> 0 <= codes[i] < |v|
    ensures |column| == |codes|
  {
    seq(|codes|, i requires 0 <= i < |codes| => v[codes[i]])
  }

  /**
   * The encoding `prepare_features` applies once the encoders are fitted:
   * the codes when the whole column is known, otherwise `fallback` in every
   * row, because the library rejects the column as a whole.
   */
  function EncodeOr(v: seq<string>, column: seq<string>, fallback: int): (r: seq<int>)
    ensures |r| == |column|
    ensures Known(v, column) ==> forall i :: 0 <= i < |column| ==> r[i] == Code(v, column[i])
    ensures !Known(v, column) ==> forall i :: 0 <= i < |column| ==> r[i] == fallback
  {
    match Transform(v, column)
    case Some(codes) => codes
    case None => seq(|column|, _ => fallback)
  }

  /** Decoding the codes of a known column gives the column back. */
  lemma InverseOfTransform(v: seq<string>, column: seq<string>)
    requires Known(v, column)
    ensures Inverse(v, Transform(v, column).value) == column
  {
  }

  /** Among ascending distinct classes, each position is the code of its class. */
  lemma {:induction false} CodeOfPosition(v: seq<string>, k: int)
    requires StrictlySorted(v)
    requires 0 <= k < |v|
    ensures Code(v, v[k]) == k
  {
    BelowIrreflexive(v[k]);
  }

  /** Encoding the classes that valid codes stand for gives the codes back. */
  lemma TransformOfInverse(v: seq<string>, codes: seq<int>)
    requires StrictlySorted(v)
    requires forall i :: 0 <= i < |codes| ==> 0 <= codes[i] < |v|
    ensures Transform(v, Inverse(v, codes)) == Some(codes)
  {
    var column := Inverse(v, codes);
    var r := Transform(v, column).value;
    forall i | 0 <= i < |codes|
      ensures r[i] == codes[i]
    {
      CodeOfPosition(v, codes[i]);
    }
    assert r == codes;
  }

  /** Codes follow the order of the values they stand for. */
  lemma CodesFollowOrder(v: seq<string>, x: string, y: string)
    requires StrictlySorted(v)
    requires x in v && y in v
    ensures Below(x, y) <==> Code(v, x) < Code(v, y)
  {
    var i, j := Code(v, x), Code(v, y);
    if Below(x, y) && i >= j {
      BelowIrreflexive(x);
      if i > j {
        BelowTransitive(x, y, x);
      }
    }
    if i < j {
      assert Below(v[i], v[j]);
    }
  }
}
