/**
 * The output-parsing loop of detectFaces (js/face-tracker.js): the detector
 * writes records of seven numbers; values 2..6 of a record are the
 * confidence and the box corners as fractions of the image size.
 */
module Detection {

  /** A detected face, in pixels (the object pushed into `faces`). */
  datatype Face = Face(x: real, y: real, width: real, height: real)

  /** The number of values per detector record. */
  const RecordSize := 7

  /** The confidence a record must exceed to be kept. */
  const MinConfidence: real := 0.5

  function Max(a: real, b: real): real { if a >= b then a else b }
  function Min(a: real, b: real): real { if a <= b then a else b }

  /** Math.min(Math.max(0, v), hi): clamps a coordinate into [0, hi] when hi >= 0. */
  function ClampCoord(v: real, hi: real): (c: real)
    ensures hi >= 0.0 ==> 0.0 <= c <= hi
    ensures 0.0 <= v <= hi ==> c == v
  {
    Min(Max(0.0, v), hi)
  }

  /** The clamped left, top, right and bottom of one record. */
  function Left(rec: seq<real>, cols: int): real
    requires |rec| == RecordSize
  {
    ClampCoord(rec[3] * cols as real, (cols - 1) as real)
  }

  function Top(rec: seq<real>, rows: int): real
    requires |rec| == RecordSize
  {
    ClampCoord(rec[4] * rows as real, (rows - 1) as real)
  }

  function Right(rec: seq<real>, cols: int): real
    requires |rec| == RecordSize
  {
    ClampCoord(rec[5] * cols as real, (cols - 1) as real)
  }

  function Bottom(rec: seq<real>, rows: int): real
    requires |rec| == RecordSize
  {
    ClampCoord(rec[6] * rows as real, (rows - 1) as real)
  }

  /** The filter of the loop: confident, and a non-empty box after clamping. */
  predicate Kept(rec: seq<real>, cols: int, rows: int)
    requires |rec| == RecordSize
  {
    rec[2] > MinConfidence && Left(rec, cols) < Right(rec, cols) && Top(rec, rows) < Bottom(rec, rows)
  }

  function FaceOf(rec: seq<real>, cols: int, rows: int): Face
    requires |rec| == RecordSize
  {
    var left := Left(rec, cols);
    var top := Top(rec, rows);
    Face(left, top, Right(rec, cols) - left, Bottom(rec, rows) - top)
  }

  /**
   * The faces the loop pushes from offset `i` on. A trailing record with fewer
   * than seven values is dropped: its missing values read as NaN in the
   * source, and every comparison with NaN is false.
   */
  function ParseFrom(out: seq<real>, i: nat, cols: int, rows: int): seq<Face>
    decreases |out| - i
  {
    if i >= |out| then []
    else if i + RecordSize <= |out| && Kept(out[i..i + RecordSize], cols, rows) then
      [FaceOf(out[i..i + RecordSize], cols, rows)] + ParseFrom(out, i + RecordSize, cols, rows)
    else ParseFrom(out, i + RecordSize, cols, rows)
  }

  /** The faces detectFaces returns for detector output `out`. */
  function ParseFaces(out: seq<real>, cols: int, rows: int): seq<Face>
  {
    ParseFrom(out, 0, cols, rows)
  }

  /** A face inside the image: positive size, within [0, cols-1] x [0, rows-1]. */
  predicate InImage(f: Face, cols: int, rows: int)
  {
    && 0.0 <= f.x && 0.0 < f.width && f.x + f.width <= (cols - 1) as real
    && 0.0 <= f.y && 0.0 < f.height && f.y + f.height <= (rows - 1) as real
  }

  /** A kept record's face lies inside the image and has a positive size. */
  lemma KeptFaceInImage(rec: seq<real>, cols: int, rows: int)
    requires |rec| == RecordSize
    requires Kept(rec, cols, rows)
    ensures InImage(FaceOf(rec, cols, rows), cols, rows)
  {
  }

  /** Every face detectFaces returns lies inside the image and has a positive size. */
  lemma {:induction false} ParseFromInImage(out: seq<real>, i: nat, cols: int, rows: int)
    ensures forall f :: f in ParseFrom(out, i, cols, rows) ==> InImage(f, cols, rows)
    decreases |out| - i
  {
    if i < |out| {
      ParseFromInImage(out, i + RecordSize, cols, rows);
      if i + RecordSize <= |out| && Kept(out[i..i + RecordSize], cols, rows) {
        KeptFaceInImage(out[i..i + RecordSize], cols, rows);
      }
    }
  }

  /** The record at offset r, when it is a full record at a multiple of seven from i. */
  ghost predicate RecordAt(out: seq<real>, i: nat, r: nat)
  {
    i <= r && (r - i) % RecordSize == 0 && r + RecordSize <= |out|
  }

  /** A record seven or more values past i + 7 is also a record counted from i. */
  lemma RecordAtShift(out: seq<real>, i: nat, r: nat)
    requires RecordAt(out, i + RecordSize, r)
    ensures RecordAt(out, i, r)
  {
    assert RecordSize == 7;
  }

  /** Every face comes from a kept full record. */
  lemma {:induction false} ParseFromSound(out: seq<real>, i: nat, cols: int, rows: int, f: Face)
    requires f in ParseFrom(out, i, cols, rows)
    ensures exists r: nat :: RecordAt(out, i, r) && Kept(out[r..r + RecordSize], cols, rows)
                             && f == FaceOf(out[r..r + RecordSize], cols, rows)
    decreases |out| - i
  {
    assert RecordSize == 7;
    var rest := ParseFrom(out, i + RecordSize, cols, rows);
    if f in rest {
      ParseFromSound(out, i + RecordSize, cols, rows, f);
      var r: nat :| RecordAt(out, i + RecordSize, r) && Kept(out[r..r + RecordSize], cols, rows)
                    && f == FaceOf(out[r..r + RecordSize], cols, rows);
      RecordAtShift(out, i, r);
    } else {
      assert i < |out|;
      assert i + RecordSize <= |out| && Kept(out[i..i + RecordSize], cols, rows);
      assert RecordAt(out, i, i);
    }
  }

  /** Every kept full record yields a face. */
  lemma {:induction false} ParseFromComplete(out: seq<real>, i: nat, r: nat, cols: int, rows: int)
    requires RecordAt(out, i, r) && Kept(out[r..r + RecordSize], cols, rows)
    ensures FaceOf(out[r..r + RecordSize], cols, rows) in ParseFrom(out, i, cols, rows)
    decreases r - i
  {
    assert RecordSize == 7;
    if r != i {
      assert RecordAt(out, i + RecordSize, r);
      ParseFromComplete(out, i + RecordSize, r, cols, rows);
    }
  }

  /** The faces are exactly the kept full records. */
  lemma ParseFromMembers(out: seq<real>, i: nat, cols: int, rows: int)
    ensures forall f :: f in ParseFrom(out, i, cols, rows) <==>
      exists r: nat :: RecordAt(out, i, r) && Kept(out[r..r + RecordSize], cols, rows)
                       && f == FaceOf(out[r..r + RecordSize], cols, rows)
  {
    forall f | f in ParseFrom(out, i, cols, rows)
      ensures exists r: nat :: RecordAt(out, i, r) && Kept(out[r..r + RecordSize], cols, rows)
                               && f == FaceOf(out[r..r + RecordSize], cols, rows)
    {
      ParseFromSound(out, i, cols, rows, f);
    }
    forall f, r: nat | RecordAt(out, i, r) && Kept(out[r..r + RecordSize], cols, rows)
                       && f == FaceOf(out[r..r + RecordSize], cols, rows)
      ensures f in ParseFrom(out, i, cols, rows)
    {
      ParseFromComplete(out, i, r, cols, rows);
    }
  }

  /** Order is preserved: the faces of a concatenation are those of each part, in turn. */
  lemma {:induction false} ParseFromAppend(a: seq<real>, b: seq<real>, i: nat, cols: int, rows: int)
    requires i <= |a| && (|a| - i) % RecordSize == 0
    ensures ParseFrom(a + b, i, cols, rows) == ParseFrom(a, i, cols, rows) + ParseFrom(b, 0, cols, rows)
    decreases |a| - i
  {
    if i == |a| {
      ParseFromShift(a, b, 0, cols, rows);
    } else {
      assert (a + b)[i..i + RecordSize] == a[i..i + RecordSize];
      ParseFromAppend(a, b, i + RecordSize, cols, rows);
    }
  }

  /** Parsing `b` after a prefix `a` at offset |a| + j is parsing `b` at offset j. */
  lemma {:induction false} ParseFromShift(a: seq<real>, b: seq<real>, j: nat, cols: int, rows: int)
    ensures ParseFrom(a + b, |a| + j, cols, rows) == ParseFrom(b, j, cols, rows)
    decreases |b| - j
  {
    var ab := a + b;
    if j < |b| {
      ParseFromShift(a, b, j + RecordSize, cols, rows);
      var rest := ParseFrom(b, j + RecordSize, cols, rows);
      if j + RecordSize <= |b| {
        var rec := b[j..j + RecordSize];
        assert ab[|a| + j..|a| + j + RecordSize] == rec;
        if Kept(rec, cols, rows) {
          assert ParseFrom(ab, |a| + j, cols, rows) == [FaceOf(rec, cols, rows)] + rest;
        } else {
          assert ParseFrom(ab, |a| + j, cols, rows) == rest;
        }
      } else {
        assert ParseFrom(ab, |a| + j, cols, rows) == rest;
      }
    } else {
      assert ParseFrom(ab, |a| + j, cols, rows) == [];
    }
  }

  /** The body of detectFaces' loop for one full record: decode, clamp, filter. */
  method DecodeRecord(rec: seq<real>, cols: int, rows: int) returns (keep: bool, face: Face)
    requires |rec| == RecordSize
    ensures keep == Kept(rec, cols, rows)
    ensures keep ==> face == FaceOf(rec, cols, rows) && InImage(face, cols, rows)
  {
    var confidence := rec[2];
    var left := rec[3] * cols as real;
    var top := rec[4] * rows as real;
    var right := rec[5] * cols as real;
    var bottom := rec[6] * rows as real;
    left := Min(Max(0.0, left), (cols - 1) as real);
    right := Min(Max(0.0, right), (cols - 1) as real);
    bottom := Min(Max(0.0, bottom), (rows - 1) as real);
    top := Min(Max(0.0, top), (rows - 1) as real);
    keep := confidence > MinConfidence && left < right && top < bottom;
    face := Face(left, top, right - left, bottom - top);
    if keep {
      KeptFaceInImage(rec, cols, rows);
    }
  }

  /** detectFaces' loop: one record per pass, i += 7, kept faces pushed in order. */
  method DetectFaces(out: seq<real>, cols: int, rows: int) returns (faces: seq<Face>)
    ensures faces == ParseFaces(out, cols, rows)
    ensures forall f :: f in faces ==> InImage(f, cols, rows)
  {
    faces := [];
    var i := 0;
    var n := |out|;
    while i < n
      invariant faces + ParseFrom(out, i, cols, rows) == ParseFaces(out, cols, rows)
      decreases n - i
    {
      if i + RecordSize <= n {
        var keep, face := DecodeRecord(out[i..i + RecordSize], cols, rows);
        if keep {
          faces := faces + [face];
        }
      }
      i := i + RecordSize;
    }
    ParseFromInImage(out, 0, cols, rows);
  }
}
