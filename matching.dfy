/**
 * The sparse coarse-to-fine template search of js/face-tracker.js
 * (getBestMatch and replaceResultOnBetterScore). The correlation search of
 * each template against the scene is foreign code: its result is given as
 * one Probe per template.
 */
module Matching {
  import opened Wrappers
  import opened Templates

  /** A box in scene coordinates (cv.Rect). */
  datatype Rect = Rect(x: int, y: int, width: int, height: int)

  /**
   * What the correlation search reports for one template: the peak of its
   * score map (negative correlations already set to 0) and where it lies.
   */
  datatype Probe = Probe(score: real, x: int, y: int)

  /** DetectionResult: box, distance, scale (hundredths), score and the winning template. */
  datatype DetectionResult = DetectionResult(box: Rect, distance: real, scale: int, score: real, templateReference: Template)

  /** The running best getBestMatch starts from: a new DetectionResult (score 0.0) with scale 1.0. */
  const Start := DetectionResult(Rect(0, 0, 0, 0), 0.0, 100, 0.0, DefaultTemplate)

  /** The coarse pass visits every third block: block starts are this far apart. */
  const CoarseStride := 3 * BlockSize

  /** getMatchScore: the peak score, and a box of the template's size at the peak. */
  function MatchScore(t: Template, p: Probe): DetectionResult
  {
    DetectionResult(Rect(p.x, p.y, t.w, t.h), 0.0, 0, p.score, DefaultTemplate)
  }

  /** The acceptance rule: strictly above the threshold and strictly above the current best. */
  predicate Accepts(candidate: real, current: real, thresh: real)
  {
    candidate > thresh && candidate > current
  }

  /** The running best after template `t` has been scored. */
  function Examine(best: DetectionResult, t: Template, p: Probe, thresh: real): DetectionResult
  {
    var cand := MatchScore(t, p);
    if Accepts(cand.score, best.score, thresh)
    then best.(score := cand.score, scale := t.scale, box := cand.box, templateReference := t)
    else best
  }

  /**
   * replaceResultOnBetterScore: overwrites score, scale, box and template of
   * the running best when the candidate wins, and reports whether it did.
   */
  method ReplaceResultOnBetterScore(source: DetectionResult, matchTmpl: Template, matchRes: DetectionResult, thresh: real)
    returns (replaced: bool, result: DetectionResult)
    ensures replaced <==> matchRes.score > thresh && matchRes.score > source.score
    ensures replaced ==> result == source.(score := matchRes.score, scale := matchTmpl.scale,
                                           box := matchRes.box, templateReference := matchTmpl)
    ensures !replaced ==> result == source
  {
    if matchRes.score > thresh && matchRes.score > source.score {
      var updated := source.(score := matchRes.score, scale := matchTmpl.scale);
      updated := updated.(box := matchRes.box, templateReference := matchTmpl);
      return true, updated;
    }
    return false, source;
  }

  ghost predicate InBounds(visited: seq<int>, n: int)
  {
    forall m :: 0 <= m < |visited| ==> 0 <= visited[m] < n
  }

  /** The running best after the templates at `visited` have been scored, in that order. */
  function BestOver(ts: seq<Template>, ps: seq<Probe>, thresh: real, visited: seq<int>): DetectionResult
    requires |ps| == |ts| && InBounds(visited, |ts|)
    decreases |visited|
  {
    if visited == [] then Start
    else
      var k := visited[|visited| - 1];
      Examine(BestOver(ts, ps, thresh, visited[..|visited| - 1]), ts[k], ps[k], thresh)
  }

  /** `j` of getBestMatch: the last index whose template replaced the running best, or -1. */
  function LastAccepted(ts: seq<Template>, ps: seq<Probe>, thresh: real, visited: seq<int>): int
    requires |ps| == |ts| && InBounds(visited, |ts|)
    decreases |visited|
  {
    if visited == [] then -1
    else
      var prefix := visited[..|visited| - 1];
      var k := visited[|visited| - 1];
      if Accepts(ps[k].score, BestOver(ts, ps, thresh, prefix).score, thresh) then k
      else LastAccepted(ts, ps, thresh, prefix)
  }

  /** The indices the coarse pass reads from block start `i` on: all three of every third block. */
  function CoarseFrom(i: int, n: int): seq<int>
    decreases n - i
  {
    if i >= n then [] else [i - 1, i, i + 1] + CoarseFrom(i + CoarseStride, n)
  }

  function CoarseOrder(n: int): seq<int>
  {
    CoarseFrom(1, n)
  }

  /** The refine pass: the same-angle template one block before and one block after `j`. */
  function RefineOrder(j: int, n: int): seq<int>
  {
    (if j - BlockSize >= 0 then [j - BlockSize] else []) + (if j + BlockSize < n then [j + BlockSize] else [])
  }

  /** Every index getBestMatch reads, in reading order. */
  function VisitOrder(ts: seq<Template>, ps: seq<Probe>, thresh: real): seq<int>
    requires |ps| == |ts| && |ts| % CoarseStride != 2
  {
    CoarseRange(1, |ts|);
    var coarse := CoarseOrder(|ts|);
    coarse + RefineOrder(LastAccepted(ts, ps, thresh, coarse), |ts|)
  }

  /** What getBestMatch returns: the final running best if its score is positive, else null. */
  function BestMatch(ts: seq<Template>, ps: seq<Probe>, thresh: real): Option<DetectionResult>
    requires |ps| == |ts| && |ts| % CoarseStride != 2
  {
    VisitOrderInBounds(ts, ps, thresh);
    var b := BestOver(ts, ps, thresh, VisitOrder(ts, ps, thresh));
    if b.score > 0.0 then Some(b) else None
  }

  /**
   * The coarse pass reads upward from i - 1, and stays below n whenever n is
   * not 2 past a block start; CoarseOverrun gives the converse.
   */
  lemma {:induction false} CoarseRange(i: int, n: int)
    requires i >= 1 && i % CoarseStride == 1
    ensures forall k :: k in CoarseFrom(i, n) ==> i - 1 <= k
    ensures n % CoarseStride != 2 ==> InBounds(CoarseFrom(i, n), n)
    decreases n - i
  {
    if i < n {
      CoarseRange(i + CoarseStride, n);
      var c := CoarseFrom(i, n);
      if n % CoarseStride != 2 {
        assert i + 1 < n;
        forall m | 0 <= m < |c| ensures 0 <= c[m] < n {
          if m >= 3 {
            assert c[m] in CoarseFrom(i + CoarseStride, n);
          }
        }
      }
    }
  }

  /**
   * When n is 2 past a block start, the coarse pass reads index n, one past
   * the end of a list of length n.
   */
  lemma {:induction false} CoarseOverrun(i: int, n: int)
    requires i >= 1 && i % CoarseStride == 1 && i < n && n % CoarseStride == 2
    ensures n in CoarseFrom(i, n)
    decreases n - i
  {
    assert CoarseStride == 9;
    if i + 1 != n {
      CoarseOverrun(i + CoarseStride, n);
    }
  }

  /** On a list of whole blocks, the coarse pass reads exactly the indices k with k mod 9 in {0, 1, 2}. */
  lemma {:induction false} CoarseExact(i: int, n: int)
    requires i >= 1 && i % CoarseStride == 1 && n % BlockSize == 0
    ensures forall k :: k in CoarseFrom(i, n) <==> i - 1 <= k < n && k % CoarseStride < BlockSize
    decreases n - i
  {
    assert CoarseStride == 9 && BlockSize == 3;
    if i < n {
      CoarseExact(i + CoarseStride, n);
      assert i + 1 < n;
    } else {
      assert i != n;
    }
  }

  /** The coarse pass reads in strictly increasing index order. */
  lemma {:induction false} CoarseIncreasing(i: int, n: int)
    requires i >= 1 && i % CoarseStride == 1
    ensures forall a, b :: 0 <= a < b < |CoarseFrom(i, n)| ==> CoarseFrom(i, n)[a] < CoarseFrom(i, n)[b]
    decreases n - i
  {
    assert CoarseStride == 9;
    if i < n {
      var c := CoarseFrom(i, n);
      var rest := CoarseFrom(i + CoarseStride, n);
      CoarseIncreasing(i + CoarseStride, n);
      CoarseRange(i + CoarseStride, n);
      forall a, b | 0 <= a < b < |c| ensures c[a] < c[b] {
        if b >= 3 {
          assert c[b] == rest[b - 3] && rest[b - 3] in rest;
          if a >= 3 {
            assert c[a] == rest[a - 3];
          }
        }
      }
    }
  }

  /** `j` is -1 or one of the indices read. */
  lemma {:induction false} LastAcceptedRange(ts: seq<Template>, ps: seq<Probe>, thresh: real, visited: seq<int>)
    requires |ps| == |ts| && InBounds(visited, |ts|)
    ensures LastAccepted(ts, ps, thresh, visited) == -1 || LastAccepted(ts, ps, thresh, visited) in visited
    decreases |visited|
  {
    if visited != [] {
      var prefix := visited[..|visited| - 1];
      LastAcceptedRange(ts, ps, thresh, prefix);
      assert prefix <= visited;
    }
  }

  /** Every index getBestMatch reads is inside the list. */
  lemma VisitOrderInBounds(ts: seq<Template>, ps: seq<Probe>, thresh: real)
    requires |ps| == |ts| && |ts| % CoarseStride != 2
    ensures InBounds(VisitOrder(ts, ps, thresh), |ts|)
  {
    CoarseRange(1, |ts|);
    LastAcceptedRange(ts, ps, thresh, CoarseOrder(|ts|));
  }

  /** The running best as the template read at position m makes it. */
  function Winner(ts: seq<Template>, ps: seq<Probe>, k: int): DetectionResult
    requires |ps| == |ts| && 0 <= k < |ts|
  {
    Start.(score := ps[k].score, scale := ts[k].scale, box := Rect(ps[k].x, ps[k].y, ts[k].w, ts[k].h),
           templateReference := ts[k])
  }

  /**
   * The read at position m decided the result: it is accepted, and every
   * earlier accepted read scored strictly less (ties go to the earlier read).
   */
  ghost predicate WinsAt(ts: seq<Template>, ps: seq<Probe>, thresh: real, visited: seq<int>, m: int, b: DetectionResult)
    requires |ps| == |ts| && InBounds(visited, |ts|) && 0 <= m < |visited|
  {
    var k := visited[m];
    && ps[k].score > thresh && ps[k].score > 0.0
    && b == Winner(ts, ps, k)
    && forall m' :: 0 <= m' < m && ps[visited[m']].score > thresh ==> ps[visited[m']].score < b.score
  }

  /**
   * The running best is the first maximum of the scores read that exceed
   * the threshold (and 0), or the untouched start if there is none.
   */
  lemma {:induction false} BestOverIsMax(ts: seq<Template>, ps: seq<Probe>, thresh: real, visited: seq<int>)
    requires |ps| == |ts| && InBounds(visited, |ts|)
    ensures forall m :: 0 <= m < |visited| && ps[visited[m]].score > thresh ==>
      ps[visited[m]].score <= BestOver(ts, ps, thresh, visited).score
    ensures BestOver(ts, ps, thresh, visited) == Start
         || exists m :: 0 <= m < |visited| && WinsAt(ts, ps, thresh, visited, m, BestOver(ts, ps, thresh, visited))
    decreases |visited|
  {
    if visited != [] {
      var last := |visited| - 1;
      var prefix := visited[..last];
      var k := visited[last];
      BestOverIsMax(ts, ps, thresh, prefix);
      var b0 := BestOver(ts, ps, thresh, prefix);
      var b := BestOver(ts, ps, thresh, visited);
      assert forall m :: 0 <= m < last ==> visited[m] == prefix[m];
      assert b0.score >= 0.0 && b0.distance == 0.0 by {
        if b0 != Start {
          var m :| 0 <= m < |prefix| && WinsAt(ts, ps, thresh, prefix, m, b0);
        }
      }
      if Accepts(ps[k].score, b0.score, thresh) {
        assert b == Winner(ts, ps, k);
        assert WinsAt(ts, ps, thresh, visited, last, b);
      } else {
        assert b == b0;
        if b0 != Start {
          var m :| 0 <= m < |prefix| && WinsAt(ts, ps, thresh, prefix, m, b0);
          assert WinsAt(ts, ps, thresh, visited, m, b);
        }
      }
    }
  }

  /** `j` names the template the running best came from, and is -1 exactly when nothing was accepted. */
  lemma {:induction false} LastAcceptedIsWinner(ts: seq<Template>, ps: seq<Probe>, thresh: real, visited: seq<int>)
    requires |ps| == |ts| && InBounds(visited, |ts|)
    ensures LastAccepted(ts, ps, thresh, visited) == -1 <==> BestOver(ts, ps, thresh, visited) == Start
    ensures LastAccepted(ts, ps, thresh, visited) != -1 ==>
      && 0 <= LastAccepted(ts, ps, thresh, visited) < |ts|
      && BestOver(ts, ps, thresh, visited) == Winner(ts, ps, LastAccepted(ts, ps, thresh, visited))
    decreases |visited|
  {
    if visited != [] {
      var last := |visited| - 1;
      var prefix := visited[..last];
      LastAcceptedIsWinner(ts, ps, thresh, prefix);
      BestOverIsMax(ts, ps, thresh, prefix);
      var b0 := BestOver(ts, ps, thresh, prefix);
      assert b0.score >= 0.0 && b0.distance == 0.0 by {
        if b0 != Start {
          var m :| 0 <= m < |prefix| && WinsAt(ts, ps, thresh, prefix, m, b0);
        }
      }
    }
  }

  /**
   * getBestMatch returns null exactly when no template read scores above
   * both the threshold and 0; otherwise it returns the first maximum of the
   * scores read above the threshold, with that template's scale and a box of
   * its size.
   */
  lemma BestMatchIsFirstMax(ts: seq<Template>, ps: seq<Probe>, thresh: real)
    requires |ps| == |ts| && |ts| % CoarseStride != 2
    ensures InBounds(VisitOrder(ts, ps, thresh), |ts|)
    ensures BestMatch(ts, ps, thresh).None? <==>
      forall m :: 0 <= m < |VisitOrder(ts, ps, thresh)| && ps[VisitOrder(ts, ps, thresh)[m]].score > thresh
        ==> ps[VisitOrder(ts, ps, thresh)[m]].score <= 0.0
    ensures BestMatch(ts, ps, thresh).Some? ==>
      && (exists m :: 0 <= m < |VisitOrder(ts, ps, thresh)|
            && WinsAt(ts, ps, thresh, VisitOrder(ts, ps, thresh), m, BestMatch(ts, ps, thresh).value))
      && (forall m :: 0 <= m < |VisitOrder(ts, ps, thresh)| && ps[VisitOrder(ts, ps, thresh)[m]].score > thresh
            ==> ps[VisitOrder(ts, ps, thresh)[m]].score <= BestMatch(ts, ps, thresh).value.score)
  {
    VisitOrderInBounds(ts, ps, thresh);
    var v := VisitOrder(ts, ps, thresh);
    BestOverIsMax(ts, ps, thresh, v);
    var b := BestOver(ts, ps, thresh, v);
    if b != Start {
      var m :| 0 <= m < |v| && WinsAt(ts, ps, thresh, v, m, b);
    }
  }

  /** A match getBestMatch returns comes from a template of the list, with a box of that template's size. */
  lemma BestMatchFromList(ts: seq<Template>, ps: seq<Probe>, thresh: real)
    requires |ps| == |ts| && |ts| % CoarseStride != 2
    ensures BestMatch(ts, ps, thresh).Some? ==>
      var r := BestMatch(ts, ps, thresh).value;
      && r.templateReference in ts
      && r.box.width == r.templateReference.w && r.box.height == r.templateReference.h
      && r.scale == r.templateReference.scale
      && r.score > 0.0 && r.score > thresh
  {
    BestMatchIsFirstMax(ts, ps, thresh);
    if BestMatch(ts, ps, thresh).Some? {
      var v := VisitOrder(ts, ps, thresh);
      var m :| 0 <= m < |v| && WinsAt(ts, ps, thresh, v, m, BestMatch(ts, ps, thresh).value);
    }
  }

  /**
   * If the coarse pass accepts nothing, j stays -1 and the refine pass still
   * reads index 2 (j + 3) when the list has one.
   */
  lemma NoCoarseAcceptanceReadsIndexTwo(ts: seq<Template>, ps: seq<Probe>, thresh: real)
    requires |ps| == |ts| && |ts| % CoarseStride != 2
    ensures InBounds(CoarseOrder(|ts|), |ts|)
    ensures LastAccepted(ts, ps, thresh, CoarseOrder(|ts|)) == -1 ==>
      VisitOrder(ts, ps, thresh) == CoarseOrder(|ts|) + (if 2 < |ts| then [2] else [])
  {
    CoarseRange(1, |ts|);
  }

  /** One read of getBestMatch: score template k and fold it into the running best r. */
  method Visit(templates: seq<Template>, probes: seq<Probe>, thresh: real, k: int,
               r: DetectionResult, ghost visited: seq<int>)
    returns (r': DetectionResult, replaced: bool, ghost visited': seq<int>)
    requires |probes| == |templates| && 0 <= k < |templates| && InBounds(visited, |templates|)
    requires r == BestOver(templates, probes, thresh, visited)
    ensures visited' == visited + [k] && InBounds(visited', |templates|)
    ensures r' == BestOver(templates, probes, thresh, visited')
    ensures LastAccepted(templates, probes, thresh, visited') ==
      if replaced then k else LastAccepted(templates, probes, thresh, visited)
  {
    var faceTmpl := templates[k];
    var scored := MatchScore(faceTmpl, probes[k]);
    replaced, r' := ReplaceResultOnBetterScore(r, faceTmpl, scored, thresh);
    visited' := visited + [k];
    assert visited'[..|visited|] == visited;
  }

  /** The indices lo, lo + 1, ..., hi - 1. */
  function Span(lo: int, hi: int): (r: seq<int>)
    ensures |r| == if hi <= lo then 0 else hi - lo
    decreases hi - lo
  {
    if hi <= lo then [] else Span(lo, hi - 1) + [hi - 1]
  }

  /**
   * One step of the coarse pass: from block start i the pass reads the block
   * at i, whose indices are all below n, and goes on at the next block start.
   */
  lemma CoarseStep(before: seq<int>, i: int, n: int)
    requires i >= 1 && i % CoarseStride == 1 && i < n && n % CoarseStride != 2
    requires before + CoarseFrom(i, n) == CoarseOrder(n)
    ensures i + 1 < n && (i + CoarseStride) % CoarseStride == 1
    ensures (before + Span(i - 1, i + 2)) + CoarseFrom(i + CoarseStride, n) == CoarseOrder(n)
  {
    NextBlock(i, n);
    SpanOfBlock(i - 1);
    var block := Span(i - 1, i + 2);
    var rest := CoarseFrom(i + CoarseStride, n);
    assert block == [i - 1, i, i + 1];
    assert CoarseFrom(i, n) == block + rest;
    assert before + (block + rest) == (before + block) + rest;
  }

  /** A block start below n has its whole block below n, and the next block start is one too. */
  lemma NextBlock(i: int, n: int)
    requires i >= 1 && i % CoarseStride == 1 && i < n && n % CoarseStride != 2
    ensures i + 1 < n && (i + CoarseStride) % CoarseStride == 1
  {
    assert CoarseStride == 9;
  }

  lemma SpanOfBlock(lo: int)
    ensures Span(lo, lo + 3) == [lo, lo + 1, lo + 2]
  {
    assert Span(lo, lo + 1) == [lo];
    assert Span(lo, lo + 2) == [lo, lo + 1];
  }

  /** The inner loop of the coarse pass: templates i - 1, i and i + 1, in that order. */
  method ScanBlock(templates: seq<Template>, probes: seq<Probe>, thresh: real, i: int,
                   r: DetectionResult, j: int, ghost visited: seq<int>)
    returns (r': DetectionResult, j': int, ghost visited': seq<int>)
    requires |probes| == |templates| && 1 <= i && i + 1 < |templates| && InBounds(visited, |templates|)
    requires r == BestOver(templates, probes, thresh, visited)
    requires j == LastAccepted(templates, probes, thresh, visited)
    ensures visited' == visited + Span(i - 1, i + 2) && InBounds(visited', |templates|)
    ensures r' == BestOver(templates, probes, thresh, visited')
    ensures j' == LastAccepted(templates, probes, thresh, visited')
  {
    r', j', visited' := r, j, visited;
    var k := i - 1;
    while k <= i + 1
      invariant i - 1 <= k <= i + 2
      invariant visited' == visited + Span(i - 1, k)
      invariant InBounds(visited', |templates|)
      invariant r' == BestOver(templates, probes, thresh, visited')
      invariant j' == LastAccepted(templates, probes, thresh, visited')
    {
      var replaced;
      r', replaced, visited' := Visit(templates, probes, thresh, k, r', visited');
      if replaced {
        j' := k;
      }
      k := k + 1;
    }
  }

  /** The coarse pass of getBestMatch: blocks 1, 10, 19, ..., all three templates of each. */
  method CoarsePass(templates: seq<Template>, probes: seq<Probe>, thresh: real)
    returns (r: DetectionResult, j: int, ghost visited: seq<int>)
    requires |probes| == |templates|
    requires |templates| % CoarseStride != 2
    ensures visited == CoarseOrder(|templates|) && InBounds(visited, |templates|)
    ensures r == BestOver(templates, probes, thresh, visited)
    ensures j == LastAccepted(templates, probes, thresh, visited)
  {
    var n := |templates|;
    r := Start;
    j := -1;
    visited := [];
    var i := 1;
    while i < n
      invariant i >= 1 && i % CoarseStride == 1
      invariant visited + CoarseFrom(i, n) == CoarseOrder(n)
      invariant InBounds(visited, n)
      invariant r == BestOver(templates, probes, thresh, visited)
      invariant j == LastAccepted(templates, probes, thresh, visited)
    {
      CoarseStep(visited, i, n);
      r, j, visited := ScanBlock(templates, probes, thresh, i, r, j, visited);
      i := i + CoarseStride;
    }
    assert CoarseFrom(i, n) == [];
  }

  /** The refine pass: the same-angle templates one block before and after j, when they exist. */
  method RefinePass(templates: seq<Template>, probes: seq<Probe>, thresh: real, j: int,
                    r: DetectionResult, ghost visited: seq<int>)
    returns (r': DetectionResult, ghost visited': seq<int>)
    requires |probes| == |templates| && InBounds(visited, |templates|) && -1 <= j < |templates|
    requires r == BestOver(templates, probes, thresh, visited)
    ensures visited' == visited + RefineOrder(j, |templates|) && InBounds(visited', |templates|)
    ensures r' == BestOver(templates, probes, thresh, visited')
  {
    r', visited' := r, visited;
    var prev := j - BlockSize;
    var next := j + BlockSize;
    var replaced;
    if prev >= 0 {
      r', replaced, visited' := Visit(templates, probes, thresh, prev, r', visited');
    }
    if next < |templates| {
      r', replaced, visited' := Visit(templates, probes, thresh, next, r', visited');
    }
  }

  /**
   * getBestMatch: the coarse pass, then the refine pass reading j - 3 and
   * j + 3 around the last coarse acceptance j; null unless the best score
   * is positive. Requires a list length the coarse pass does not overrun.
   */
  method GetBestMatch(templates: seq<Template>, probes: seq<Probe>, thresh: real)
    returns (res: Option<DetectionResult>, ghost visited: seq<int>)
    requires |probes| == |templates|
    requires |templates| % CoarseStride != 2
    ensures forall m :: 0 <= m < |visited| ==> 0 <= visited[m] < |templates|
    ensures visited == VisitOrder(templates, probes, thresh)
    ensures res == BestMatch(templates, probes, thresh)
  {
    var r, j;
    r, j, visited := CoarsePass(templates, probes, thresh);
    LastAcceptedRange(templates, probes, thresh, visited);
    assert -1 <= j < |templates| by {
      if j != -1 {
        var m :| 0 <= m < |visited| && visited[m] == j;
      }
    }

    r, visited := RefinePass(templates, probes, thresh, j, r, visited);

    if r.score > 0.0 {
      res := Some(r);
    } else {
      res := None;
    }
  }
}
