/**
 * The template bank of js/face-templates.js: synthetic scale/rotation variants
 * of one face crop, kept as a sparse reference set and a dense working set.
 *
 * Scales are integers in hundredths (110 stands for 1.1), so the scale loop
 * of the source is exact here; pixels are left out, only the sizes matter.
 */
module Templates {
  import opened Wrappers

  /** The size of an image or of a bound, in pixels (cv.Size). */
  datatype Size = Size(width: int, height: int)

  /** A face crop; only its size matters to the logic. */
  datatype FaceImage = FaceImage(width: nat, height: nat)

  /**
   * One template (TemplateType): its scale in hundredths, its rotation angle
   * in degrees, its size in pixels, and whether it is the canonical scale 1.0.
   */
  datatype Template = Template(scale: int, angle: int, w: int, h: int, isOriginal: bool)

  /** A freshly constructed TemplateType: not original, scale 1.0, an empty image. */
  const DefaultTemplate := Template(100, 0, 0, 0, false)

  /** Templates smaller than this in either dimension end the scale loop. */
  const MinSide := 20

  /** The rotations applied at every scale, in emission order. */
  const Angles: seq<int> := [-15, 0, 15]

  /** The number of templates emitted per scale: the block size of a bank. */
  const BlockSize := 3

  /** Math.round(scale / 100 * dim): to the nearest integer, halves upward. */
  function Round(scale: int, dim: int): (r: int)
    ensures 100 * r - 50 <= scale * dim < 100 * r + 50
  {
    (scale * dim + 50) / 100
  }

  lemma RoundMonotone(s1: int, s2: int, dim: nat)
    requires s1 <= s2
    ensures Round(s1, dim) <= Round(s2, dim)
  {
    assert s1 * dim <= s2 * dim by {
      assert (s2 - s1) * dim >= 0;
    }
  }

  /** The over-scale guard: the template would not fit strictly inside the frame. */
  predicate Oversized(face: FaceImage, s: int, maxSize: Size)
  {
    Round(s, face.width) >= maxSize.width || Round(s, face.height) >= maxSize.height
  }

  /** The under-scale guard: the template would be smaller than MinSide. */
  predicate Undersized(face: FaceImage, s: int)
  {
    Round(s, face.width) < MinSide || Round(s, face.height) < MinSide
  }

  /** The template emitted for scale `s` and angle `a`. */
  function Variant(face: FaceImage, s: int, a: int): Template
  {
    Template(s, a, Round(s, face.width), Round(s, face.height), s == 100)
  }

  /** The three templates emitted for scale `s`, one per angle. */
  function Block(face: FaceImage, s: int): seq<Template>
  {
    [Variant(face, s, Angles[0]), Variant(face, s, Angles[1]), Variant(face, s, Angles[2])]
  }

  /** The k-th scale the loop visits when it starts from `s`. */
  function GridScale(s: int, step: int, k: nat): int
  {
    s - k * step
  }

  /**
   * What the scale loop of generateTemplates emits from scale `s` downward:
   * over-sized scales are skipped, the first under-sized one ends the loop.
   */
  function TemplatesFrom(face: FaceImage, s: int, smallest: int, step: int, maxSize: Size): seq<Template>
    requires step > 0
    decreases s - smallest + step
  {
    if s < smallest then []
    else if Oversized(face, s, maxSize) then TemplatesFrom(face, s - step, smallest, step, maxSize)
    else if Undersized(face, s) then []
    else Block(face, s) + TemplatesFrom(face, s - step, smallest, step, maxSize)
  }

  /** Three templates of one scale, at angles -15, 0, +15 in that order. */
  ghost predicate IsBlock(b: seq<Template>)
  {
    && |b| == BlockSize
    && forall k :: 0 <= k < BlockSize ==> b[k].angle == Angles[k] && b[k].scale == b[0].scale
  }

  /** A sequence of whole blocks. */
  ghost predicate BlockLayout(ts: seq<Template>)
    decreases |ts|
  {
    ts == [] || (BlockSize <= |ts| && IsBlock(ts[..BlockSize]) && BlockLayout(ts[BlockSize..]))
  }

  /** Each block's scale exceeds every scale that follows it. */
  ghost predicate DecreasingBlocks(ts: seq<Template>)
    decreases |ts|
  {
    |ts| < BlockSize
    || ((forall t :: t in ts[BlockSize..] ==> t.scale < ts[0].scale) && DecreasingBlocks(ts[BlockSize..]))
  }

  /**
   * A template set as generateTemplates leaves it for the bound `maxSize`:
   * whole blocks of decreasing scale, every template at least MinSide and
   * strictly inside the bound, original exactly at scale 1.0.
   */
  ghost predicate IsBank(ts: seq<Template>, maxSize: Size)
  {
    && |ts| % BlockSize == 0
    && BlockLayout(ts)
    && DecreasingBlocks(ts)
    && forall t :: t in ts ==>
         && MinSide <= t.w < maxSize.width && MinSide <= t.h < maxSize.height
         && (t.isOriginal <==> t.scale == 100)
  }

  /** Prepending one block keeps the block layout. */
  lemma BlockThenLayout(face: FaceImage, s: int, rest: seq<Template>)
    requires BlockLayout(rest)
    ensures BlockLayout(Block(face, s) + rest)
  {
    var ts := Block(face, s) + rest;
    assert ts[..BlockSize] == Block(face, s);
    assert ts[BlockSize..] == rest;
  }

  /** A whole number of blocks: the length is a multiple of three. */
  lemma {:induction false} BlockLayoutLength(ts: seq<Template>)
    requires BlockLayout(ts)
    ensures |ts| % BlockSize == 0
    decreases |ts|
  {
    if ts != [] {
      BlockLayoutLength(ts[BlockSize..]);
    }
  }

  /** The n-th triple of a layout is a block. */
  lemma {:induction false} BlockLayoutAt(ts: seq<Template>, n: nat)
    requires BlockLayout(ts) && BlockSize * n + BlockSize <= |ts|
    ensures IsBlock(ts[BlockSize * n..BlockSize * n + BlockSize])
    decreases n
  {
    if n > 0 {
      var rest := ts[BlockSize..];
      BlockLayoutAt(rest, n - 1);
      assert rest[BlockSize * (n - 1)..BlockSize * (n - 1) + BlockSize] == ts[BlockSize * n..BlockSize * n + BlockSize];
    }
  }

  lemma {:induction false} TemplatesFromLayout(face: FaceImage, s: int, smallest: int, step: int, maxSize: Size)
    requires step > 0
    ensures BlockLayout(TemplatesFrom(face, s, smallest, step, maxSize))
    decreases s - smallest + step
  {
    if s < smallest {
    } else if Oversized(face, s, maxSize) {
      TemplatesFromLayout(face, s - step, smallest, step, maxSize);
    } else if Undersized(face, s) {
    } else {
      TemplatesFromLayout(face, s - step, smallest, step, maxSize);
      BlockThenLayout(face, s, TemplatesFrom(face, s - step, smallest, step, maxSize));
    }
  }

  /**
   * Every emitted template is the variant of its own scale and angle, at a
   * scale in [smallest, s] that passes both guards.
   */
  lemma {:induction false} TemplatesFromMembers(face: FaceImage, s: int, smallest: int, step: int, maxSize: Size)
    requires step > 0
    ensures forall t :: t in TemplatesFrom(face, s, smallest, step, maxSize) ==>
      && smallest <= t.scale <= s
      && t.angle in Angles
      && t == Variant(face, t.scale, t.angle)
      && !Oversized(face, t.scale, maxSize)
      && !Undersized(face, t.scale)
    decreases s - smallest + step
  {
    if s < smallest {
    } else if Oversized(face, s, maxSize) {
      TemplatesFromMembers(face, s - step, smallest, step, maxSize);
    } else if Undersized(face, s) {
    } else {
      var rest := TemplatesFrom(face, s - step, smallest, step, maxSize);
      TemplatesFromMembers(face, s - step, smallest, step, maxSize);
      var ts := TemplatesFrom(face, s, smallest, step, maxSize);
      assert ts == Block(face, s) + rest;
      forall t | t in ts
        ensures smallest <= t.scale <= s && t.angle in Angles && t == Variant(face, t.scale, t.angle)
        ensures !Oversized(face, t.scale, maxSize) && !Undersized(face, t.scale)
      {
        if t !in rest {
          assert t in Block(face, s);
          assert t.scale == s && t.angle in Angles;
        }
      }
    }
  }

  /** Prepending a block whose scale exceeds every later scale keeps the blocks decreasing. */
  lemma BlockThenDecreasing(face: FaceImage, s: int, rest: seq<Template>)
    requires DecreasingBlocks(rest)
    requires forall t :: t in rest ==> t.scale < s
    ensures DecreasingBlocks(Block(face, s) + rest)
  {
    var ts := Block(face, s) + rest;
    assert ts[BlockSize..] == rest;
  }

  lemma {:induction false} TemplatesFromDecreasing(face: FaceImage, s: int, smallest: int, step: int, maxSize: Size)
    requires step > 0
    ensures DecreasingBlocks(TemplatesFrom(face, s, smallest, step, maxSize))
    decreases s - smallest + step
  {
    if s < smallest {
    } else if Oversized(face, s, maxSize) {
      TemplatesFromDecreasing(face, s - step, smallest, step, maxSize);
    } else if Undersized(face, s) {
    } else {
      TemplatesFromDecreasing(face, s - step, smallest, step, maxSize);
      TemplatesFromMembers(face, s - step, smallest, step, maxSize);
      BlockThenDecreasing(face, s, TemplatesFrom(face, s - step, smallest, step, maxSize));
    }
  }

  /** The list generateTemplates returns is a well-formed bank. */
  lemma TemplatesFromIsBank(face: FaceImage, s: int, smallest: int, step: int, maxSize: Size)
    requires step > 0
    ensures IsBank(TemplatesFrom(face, s, smallest, step, maxSize), maxSize)
  {
    TemplatesFromLayout(face, s, smallest, step, maxSize);
    BlockLayoutLength(TemplatesFrom(face, s, smallest, step, maxSize));
    TemplatesFromDecreasing(face, s, smallest, step, maxSize);
    TemplatesFromMembers(face, s, smallest, step, maxSize);
  }

  /**
   * Every scale the loop visits that passes both guards yields all three
   * angles: the under-scale guard can stop the loop only below such a scale,
   * since the rounded size only shrinks as the scale goes down.
   */
  lemma {:induction false} TemplatesFromCompleteAt(face: FaceImage, s: int, smallest: int, step: int, maxSize: Size,
                                                   k: nat, a: int)
    requires step > 0 && a in Angles
    requires smallest <= GridScale(s, step, k)
    requires !Oversized(face, GridScale(s, step, k), maxSize) && !Undersized(face, GridScale(s, step, k))
    ensures Variant(face, GridScale(s, step, k), a) in TemplatesFrom(face, s, smallest, step, maxSize)
    decreases k
  {
    var g := GridScale(s, step, k);
    if k == 0 {
      assert Variant(face, s, a) in Block(face, s);
    } else {
      assert GridScale(s - step, step, k - 1) == g;
      assert g <= s - step;
      if !Oversized(face, s, maxSize) {
        RoundMonotone(g, s, face.width);
        RoundMonotone(g, s, face.height);
      }
      TemplatesFromCompleteAt(face, s - step, smallest, step, maxSize, k - 1, a);
    }
  }

  lemma TemplatesFromComplete(face: FaceImage, s: int, smallest: int, step: int, maxSize: Size)
    requires step > 0
    ensures forall k: nat, a ::
      (a in Angles && smallest <= GridScale(s, step, k)
       && !Oversized(face, GridScale(s, step, k), maxSize) && !Undersized(face, GridScale(s, step, k)))
      ==> Variant(face, GridScale(s, step, k), a) in TemplatesFrom(face, s, smallest, step, maxSize)
  {
    forall k: nat, a | a in Angles && smallest <= GridScale(s, step, k)
      && !Oversized(face, GridScale(s, step, k), maxSize) && !Undersized(face, GridScale(s, step, k))
      ensures Variant(face, GridScale(s, step, k), a) in TemplatesFrom(face, s, smallest, step, maxSize)
    {
      TemplatesFromCompleteAt(face, s, smallest, step, maxSize, k, a);
    }
  }

  /** Every emitted scale is one the loop visits: s, s - step, s - 2*step, ... */
  lemma {:induction false} TemplatesFromOnGrid(face: FaceImage, s: int, smallest: int, step: int, maxSize: Size)
    requires step > 0
    ensures forall t :: t in TemplatesFrom(face, s, smallest, step, maxSize) ==>
      exists k: nat :: t.scale == GridScale(s, step, k)
    decreases s - smallest + step
  {
    var ts := TemplatesFrom(face, s, smallest, step, maxSize);
    if s >= smallest && !(!Oversized(face, s, maxSize) && Undersized(face, s)) {
      var rest := TemplatesFrom(face, s - step, smallest, step, maxSize);
      TemplatesFromOnGrid(face, s - step, smallest, step, maxSize);
      forall t | t in ts ensures exists k: nat :: t.scale == GridScale(s, step, k)
      {
        if t in rest {
          var k: nat :| t.scale == GridScale(s - step, step, k);
          assert t.scale == GridScale(s, step, k + 1);
        } else {
          assert t.scale == GridScale(s, step, 0);
        }
      }
    }
  }

  /**
   * The under-scale break: once a scale is too small, no scale at or below
   * it is ever emitted.
   */
  lemma TemplatesFromStopsBelow(face: FaceImage, s: int, smallest: int, step: int, maxSize: Size, small: int)
    requires step > 0
    requires Undersized(face, small)
    ensures forall t :: t in TemplatesFrom(face, s, smallest, step, maxSize) ==> t.scale > small
  {
    TemplatesFromMembers(face, s, smallest, step, maxSize);
    forall t | t in TemplatesFrom(face, s, smallest, step, maxSize) ensures t.scale > small
    {
      if t.scale <= small {
        RoundMonotone(t.scale, small, face.width);
        RoundMonotone(t.scale, small, face.height);
      }
    }
  }

  /** The running maximum of update(), starting from 0.0. */
  function MaxScore(scores: seq<real>): real
    decreases |scores|
  {
    if scores == [] then 0.0
    else
      var m := MaxScore(scores[..|scores| - 1]);
      if scores[|scores| - 1] > m then scores[|scores| - 1] else m
  }

  /** MaxScore is 0.0 or the largest score, whichever is larger. */
  lemma {:induction false} MaxScoreIsMax(scores: seq<real>)
    ensures 0.0 <= MaxScore(scores)
    ensures forall i :: 0 <= i < |scores| ==> scores[i] <= MaxScore(scores)
    ensures MaxScore(scores) == 0.0 || MaxScore(scores) in scores
    decreases |scores|
  {
    if scores != [] {
      var init := scores[..|scores| - 1];
      MaxScoreIsMax(init);
      assert forall i :: 0 <= i < |init| ==> scores[i] == init[i];
    }
  }

  /** The template collection: fields maxSize, reference and templates. */
  class FaceTemplates {
    var maxSize: Size
    var reference: seq<Template>
    var templates: seq<Template>

    ghost predicate Valid()
      reads this
    {
      IsBank(reference, maxSize) && IsBank(templates, maxSize)
    }

    constructor ()
      ensures Valid()
      ensures maxSize == Size(0, 0) && reference == [] && templates == []
    {
      maxSize := Size(0, 0);
      reference := [];
      templates := [];
    }

    /**
     * generateTemplates: scales from `largest` down to `smallest` by `step`
     * (hundredths), three angles per scale; throws on a missing face image.
     */
    static method GenerateTemplates(face: Option<FaceImage>, smallest: int, largest: int, step: int, maxSize: Size)
      returns (r: Result<seq<Template>>)
      requires step > 0
      ensures r.Failure? <==> face.None?
      ensures face.Some? ==> r.value == TemplatesFrom(face.value, largest, smallest, step, maxSize)
    {
      if face.None? {
        return Failure("faceImg cannot be null when generating templates");
      }
      var img := face.value;
      var q: seq<Template> := [];
      var s := largest;
      while s >= smallest
        invariant q + TemplatesFrom(img, s, smallest, step, maxSize) == TemplatesFrom(img, largest, smallest, step, maxSize)
        decreases s - smallest
      {
        var w := Round(s, img.width);
        var h := Round(s, img.height);
        if w >= maxSize.width || h >= maxSize.height {
          s := s - step;
          continue;
        }
        if w < MinSide || h < MinSide {
          break;
        }
        ghost var q0 := q;
        var a := -15;
        while a <= 15
          invariant a in {-15, 0, 15, 30}
          invariant q == q0 + Block(img, s)[..(a + 15) / 15]
        {
          q := q + [Template(s, a, w, h, s == 100)];
          a := a + 15;
        }
        s := s - step;
      }
      return Success(q);
    }

    /**
     * init: stores maxSize, then generates the reference and the working set.
     * A missing face fails after maxSize is stored and leaves both sets as
     * they were, which need not fit the new bound.
     */
    method Init(face: Option<FaceImage>, maxSize: Size) returns (outcome: Outcome)
      modifies this
      ensures face.Some? ==> Valid()
      ensures this.maxSize == maxSize
      ensures outcome.Pass? <==> face.Some?
      ensures face.Some? ==> reference == TemplatesFrom(face.value, 100, 10, 10, maxSize)
      ensures face.Some? ==> templates == TemplatesFrom(face.value, 110, 60, 5, maxSize)
      ensures face.None? ==> reference == old(reference) && templates == old(templates)
    {
      this.maxSize := maxSize;
      var r := GenerateTemplates(face, 10, 100, 10, maxSize);
      if r.Failure? {
        return Fail(r.error);
      }
      var w := GenerateTemplates(face, 60, 110, 5, maxSize);
      TemplatesFromIsBank(face.value, 100, 10, 10, maxSize);
      TemplatesFromIsBank(face.value, 110, 60, 5, maxSize);
      reference := r.value;
      templates := w.value;
      return Pass;
    }

    /**
     * update: the best reference score (from 0.0) gates a regeneration of the
     * working set at a fixed 0.05 step; `refScores[i]` is the correlation
     * value read for reference template i.
     */
    method Update(face: Option<FaceImage>, smallest: int, largest: int, thresh: real, refScores: seq<real>)
      returns (outcome: Outcome)
      requires Valid()
      requires |refScores| == |reference|
      modifies this`templates
      ensures Valid()
      ensures reference == old(reference) && maxSize == old(maxSize)
      ensures outcome.Pass? <==> face.Some?
      ensures face.Some? && MaxScore(refScores) > thresh ==>
        templates == TemplatesFrom(face.value, largest, smallest, 5, maxSize)
      ensures face.None? || MaxScore(refScores) <= thresh ==> templates == old(templates)
      ensures reference == [] && thresh >= 0.0 ==> templates == old(templates)
    {
      if face.None? {
        return Fail("faceImg is null");
      }
      var maxScore := 0.0;
      var i := 0;
      while i < |reference|
        invariant 0 <= i <= |reference|
        invariant maxScore == MaxScore(refScores[..i])
      {
        var score := refScores[i];
        assert refScores[..i + 1][..i] == refScores[..i];
        if score > maxScore {
          maxScore := score;
        }
        i := i + 1;
      }
      assert refScores[..i] == refScores;
      if maxScore > thresh {
        var g := GenerateTemplates(face, smallest, largest, 5, maxSize);
        TemplatesFromIsBank(face.value, largest, smallest, 5, maxSize);
        templates := g.value;
      }
      return Pass;
    }
  }
}
