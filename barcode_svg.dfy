/** The SVG renderer of the barcode generator
    (internal/services/generator/barcode.go, lines 295-350).

    The encoded barcode is seen through its first row of modules: `true` for a
    dark module (red channel 0), `false` for a light one, column 0 being
    `bounds.Min.X`. The renderer scans that row once, emitting one black
    rectangle per maximal run of dark modules; the model keeps each rectangle
    in module units and leaves the scaling to pixels aside. */
module BarcodeSvg {
  import opened Wrappers
  import opened Text

  const TextPaddingHeight := 20

  /** A black rectangle: the first module it covers and how many it covers. */
  datatype Run = Run(start: int, length: int)

  function End(r: Run): int {
    r.start + r.length
  }

  predicate InRun(r: Run, i: int) {
    r.start <= i < End(r)
  }

  /** The caption under the bars: its anchor and its escaped text. */
  datatype Caption = Caption(x: int, y: int, text: seq<byte>)

  /** What the renderer writes: the canvas size (also the view box and the
      white background), the bars with their common height, and the caption. */
  datatype SvgImage = SvgImage(
    width: int,
    totalHeight: int,
    bars: seq<Run>,
    barHeight: int,
    caption: Option<Caption>)

  // ---------------------------------------------------------------------------
  // The runs of dark modules

  /** The maximal runs of dark modules, left to right, defined one module at a
      time from the right: a light module adds nothing, a dark one after a
      dark one lengthens the last run, any other dark one opens a new run. */
  function Runs(p: seq<bool>): (rs: seq<Run>)
    ensures |rs| > 0 ==> End(rs[|rs| - 1]) <= |p|
    ensures |p| > 0 && p[|p| - 1] <==> |rs| > 0 && End(rs[|rs| - 1]) == |p|
  {
    if |p| == 0 then []
    else
      var q := p[..|p| - 1];
      var rq := Runs(q);
      if !p[|p| - 1] then rq
      else if |q| > 0 && q[|q| - 1] then
        var last := rq[|rq| - 1];
        rq[..|rq| - 1] + [Run(last.start, last.length + 1)]
      else rq + [Run(|q|, 1)]
  }

  predicate Covered(rs: seq<Run>, i: int) {
    exists k :: 0 <= k < |rs| && InRun(rs[k], i)
  }

  /** `rs` describes the dark modules of `p` exactly: every run is non-empty
      and inside the row, the runs go left to right with at least one light
      module between two of them, and a module is dark exactly when a run
      covers it. */
  predicate IsRunCover(p: seq<bool>, rs: seq<Run>) {
    (forall k :: 0 <= k < |rs| ==> 0 <= rs[k].start && 0 < rs[k].length && End(rs[k]) <= |p|)
    && (forall j, k :: 0 <= j < k < |rs| ==> End(rs[j]) < rs[k].start)
    && (forall i :: 0 <= i < |p| ==> (p[i] <==> Covered(rs, i)))
  }

  /** In a cover, a dark last module is covered by the last run, which ends
      there; a light last module is covered by no run. */
  lemma CoverAtEnd(p: seq<bool>, rs: seq<Run>)
    requires |p| > 0 && IsRunCover(p, rs)
    ensures p[|p| - 1] ==> |rs| > 0 && End(rs[|rs| - 1]) == |p|
    ensures !p[|p| - 1] ==> forall k :: 0 <= k < |rs| ==> End(rs[k]) < |p|
  {
    var m := |p| - 1;
    if p[m] {
      assert Covered(rs, m);
      var k :| 0 <= k < |rs| && InRun(rs[k], m);
    }
  }

  /** Resizing the last run changes nothing below both of its ends. */
  lemma CoveredResizeLast(rs: seq<Run>, len: int, i: int)
    requires |rs| > 0 && i < End(rs[|rs| - 1]) && i < rs[|rs| - 1].start + len
    ensures Covered(rs, i) <==> Covered(rs[..|rs| - 1] + [Run(rs[|rs| - 1].start, len)], i)
  {
    var n := |rs|;
    var ps := rs[..n - 1] + [Run(rs[n - 1].start, len)];
    if Covered(rs, i) {
      var k :| 0 <= k < n && InRun(rs[k], i);
      assert InRun(ps[k], i);
    }
    if Covered(ps, i) {
      var k :| 0 <= k < n && InRun(ps[k], i);
      assert InRun(rs[k], i);
    }
  }

  // Extending a cover of the row `p[..|p| - 1]` to the row `p`.

  /** A light last module keeps the cover of the front. */
  lemma CoverLight(p: seq<bool>, rs: seq<Run>)
    requires |p| > 0 && !p[|p| - 1] && IsRunCover(p[..|p| - 1], rs)
    ensures IsRunCover(p, rs)
  {
    var q := p[..|p| - 1];
    forall i | 0 <= i < |p| ensures p[i] <==> Covered(rs, i) {
      if i < |q| {
        assert p[i] == q[i];
      }
    }
  }

  /** A dark last module after a light one (or alone) opens a new run of
      length one. */
  lemma CoverDarkOpens(p: seq<bool>, rs: seq<Run>)
    requires |p| > 0 && p[|p| - 1] && (|p| == 1 || !p[|p| - 2])
    requires IsRunCover(p[..|p| - 1], rs)
    ensures IsRunCover(p, rs + [Run(|p| - 1, 1)])
  {
    var q := p[..|p| - 1];
    var n := |rs|;
    var ps := rs + [Run(|q|, 1)];
    if |q| > 0 {
      assert q[|q| - 1] == p[|p| - 2];
      CoverAtEnd(q, rs);
    }
    forall i | 0 <= i < |p| ensures p[i] <==> Covered(ps, i) {
      if i < |q| {
        assert p[i] == q[i];
        if Covered(rs, i) {
          var k :| 0 <= k < n && InRun(rs[k], i);
          assert InRun(ps[k], i);
        }
        if Covered(ps, i) {
          var k :| 0 <= k < n + 1 && InRun(ps[k], i);
          assert k < n && InRun(rs[k], i);
        }
      } else {
        assert InRun(ps[n], i);
      }
    }
  }

  /** A dark last module after a dark one lengthens the last run. */
  lemma CoverDarkExtends(p: seq<bool>, rs: seq<Run>)
    requires |p| > 1 && p[|p| - 1] && p[|p| - 2]
    requires IsRunCover(p[..|p| - 1], rs)
    ensures |rs| > 0
    ensures IsRunCover(p, rs[..|rs| - 1] + [Run(rs[|rs| - 1].start, rs[|rs| - 1].length + 1)])
  {
    var q := p[..|p| - 1];
    assert q[|q| - 1] == p[|p| - 2];
    CoverAtEnd(q, rs);
    var n := |rs|;
    var last := rs[n - 1];
    var ps := rs[..n - 1] + [Run(last.start, last.length + 1)];
    forall i | 0 <= i < |p| ensures p[i] <==> Covered(ps, i) {
      if i < |q| {
        assert p[i] == q[i];
        CoveredResizeLast(rs, last.length + 1, i);
      } else {
        assert InRun(ps[n - 1], i);
      }
    }
  }

  /** Removing a light last module from a cover. */
  lemma UncoverLight(q: seq<bool>, rs: seq<Run>)
    requires IsRunCover(q + [false], rs)
    ensures IsRunCover(q, rs)
  {
    var p := q + [false];
    CoverAtEnd(p, rs);
    forall i | 0 <= i < |q| ensures q[i] <==> Covered(rs, i) {
      assert q[i] == p[i];
    }
  }

  /** One step of the scan keeps the cover: a light last module. */
  lemma RunsCoverLight(p: seq<bool>)
    requires |p| > 0 && !p[|p| - 1] && IsRunCover(p[..|p| - 1], Runs(p[..|p| - 1]))
    ensures IsRunCover(p, Runs(p))
  {
    CoverLight(p, Runs(p[..|p| - 1]));
    RunsStepLight(p);
  }

  /** One step of the scan keeps the cover: a dark module opening a run. */
  lemma RunsCoverOpen(p: seq<bool>)
    requires |p| > 0 && p[|p| - 1] && (|p| == 1 || !p[|p| - 2])
    requires IsRunCover(p[..|p| - 1], Runs(p[..|p| - 1]))
    ensures IsRunCover(p, Runs(p))
  {
    CoverDarkOpens(p, Runs(p[..|p| - 1]));
    RunsStepOpen(p);
  }

  /** One step of the scan keeps the cover: a dark module lengthening a run. */
  lemma RunsCoverExtend(p: seq<bool>)
    requires |p| > 1 && p[|p| - 1] && p[|p| - 2]
    requires IsRunCover(p[..|p| - 1], Runs(p[..|p| - 1]))
    ensures IsRunCover(p, Runs(p))
  {
    CoverDarkExtends(p, Runs(p[..|p| - 1]));
    RunsStepExtend(p);
  }

  /** The runs of the scan cover the dark modules exactly, as maximal runs. */
  lemma {:induction false} RunsAreRunCover(p: seq<bool>)
    ensures IsRunCover(p, Runs(p))
  {
    if |p| > 0 {
      RunsAreRunCover(p[..|p| - 1]);
      if !p[|p| - 1] {
        RunsCoverLight(p);
      } else if |p| > 1 && p[|p| - 2] {
        RunsCoverExtend(p);
      } else {
        RunsCoverOpen(p);
      }
    }
  }

  /** Removing the last module, dark and alone in its run, from a cover. */
  lemma UncoverLoneDark(q: seq<bool>, rs: seq<Run>)
    requires IsRunCover(q + [true], rs) && |rs| > 0 && rs[|rs| - 1].length == 1
    ensures IsRunCover(q, rs[..|rs| - 1])
    ensures |q| == 0 || !q[|q| - 1]
  {
    var p := q + [true];
    CoverAtEnd(p, rs);
    var n := |rs|;
    var init := rs[..n - 1];
    forall i | 0 <= i < |q| ensures q[i] <==> Covered(init, i) {
      assert q[i] == p[i];
      if Covered(rs, i) {
        var k :| 0 <= k < n && InRun(rs[k], i);
        assert k < n - 1 && InRun(init[k], i);
      }
      if Covered(init, i) {
        var k :| 0 <= k < n - 1 && InRun(init[k], i);
        assert InRun(rs[k], i);
      }
    }
    if |q| > 0 {
      assert q[|q| - 1] == p[|q| - 1];
    }
  }

  /** Removing the last module, dark and not alone in its run, from a cover. */
  lemma UncoverLongDark(q: seq<bool>, rs: seq<Run>)
    requires IsRunCover(q + [true], rs) && |rs| > 0 && rs[|rs| - 1].length > 1
    ensures IsRunCover(q, rs[..|rs| - 1] + [Run(rs[|rs| - 1].start, rs[|rs| - 1].length - 1)])
    ensures |q| > 0 && q[|q| - 1]
  {
    var p := q + [true];
    CoverAtEnd(p, rs);
    var n := |rs|;
    var last := rs[n - 1];
    var shorter := rs[..n - 1] + [Run(last.start, last.length - 1)];
    forall i | 0 <= i < |q| ensures q[i] <==> Covered(shorter, i) {
      assert q[i] == p[i];
      CoveredResizeLast(rs, last.length - 1, i);
    }
    assert InRun(rs[n - 1], |q| - 1);
    assert Covered(rs, |q| - 1);
    assert p[|q| - 1];
  }

  // One step of `Runs`, stated for a row `p` and its front `p[..|p| - 1]`.

  lemma RunsStepLight(p: seq<bool>)
    requires |p| > 0 && !p[|p| - 1]
    ensures Runs(p) == Runs(p[..|p| - 1])
  {
  }

  lemma RunsStepOpen(p: seq<bool>)
    requires |p| > 0 && p[|p| - 1] && (|p| == 1 || !p[|p| - 2])
    ensures Runs(p) == Runs(p[..|p| - 1]) + [Run(|p| - 1, 1)]
  {
    if |p| > 1 {
      assert p[..|p| - 1][|p| - 2] == p[|p| - 2];
    }
  }

  lemma RunsStepExtend(p: seq<bool>)
    requires |p| > 1 && p[|p| - 1] && p[|p| - 2]
    ensures var rq := Runs(p[..|p| - 1]);
      |rq| > 0 && Runs(p) == rq[..|rq| - 1] + [Run(rq[|rq| - 1].start, rq[|rq| - 1].length + 1)]
  {
    assert p[..|p| - 1][|p| - 2] == p[|p| - 2];
  }

  /** The cover of a row ending in a dark module alone in its run is the
      cover of the shorter row with that run added. */
  lemma RunsAfterLoneDark(q: seq<bool>, rs: seq<Run>)
    requires IsRunCover(q + [true], rs) && |rs| > 0 && rs[|rs| - 1].length == 1
    requires Runs(q) == rs[..|rs| - 1]
    ensures rs == Runs(q + [true])
  {
    var p := q + [true];
    UncoverLoneDark(q, rs);
    CoverAtEnd(p, rs);
    AppendOneParts(q, true);
    RunsStepOpen(p);
    SplitLast(rs);
  }

  /** The cover of a row ending in a dark module that is not alone in its run
      is the cover of the shorter row with the last run one module longer. */
  lemma RunsAfterLongDark(q: seq<bool>, rs: seq<Run>)
    requires IsRunCover(q + [true], rs) && |rs| > 0 && rs[|rs| - 1].length > 1
    requires Runs(q) == rs[..|rs| - 1] + [Run(rs[|rs| - 1].start, rs[|rs| - 1].length - 1)]
    ensures rs == Runs(q + [true])
  {
    var p := q + [true];
    var n := |rs|;
    var last := rs[n - 1];
    UncoverLongDark(q, rs);
    AppendOneParts(q, true);
    RunsStepExtend(p);
    AppendOneParts(rs[..n - 1], Run(last.start, last.length - 1));
    SplitLast(rs);
  }

  /** Only one sequence of runs describes a row: any run cover is the scan's. */
  lemma {:induction false} RunCoverUnique(p: seq<bool>, rs: seq<Run>)
    requires IsRunCover(p, rs)
    ensures rs == Runs(p)
  {
    if |p| > 0 {
      var q := p[..|p| - 1];
      assert p == q + [p[|p| - 1]];
      if !p[|p| - 1] {
        UncoverLight(q, rs);
        RunCoverUnique(q, rs);
        RunsStepLight(p);
      } else {
        CoverAtEnd(p, rs);
        var n := |rs|;
        var last := rs[n - 1];
        if last.length == 1 {
          UncoverLoneDark(q, rs);
          RunCoverUnique(q, rs[..n - 1]);
          RunsAfterLoneDark(q, rs);
        } else {
          UncoverLongDark(q, rs);
          var shorter := rs[..n - 1] + [Run(last.start, last.length - 1)];
          RunCoverUnique(q, shorter);
          RunsAfterLongDark(q, rs);
        }
      }
    }
  }

  // The steps of the scan below, one column `x` at a time.

  lemma ScanLight(p: seq<bool>, x: int)
    requires 0 <= x < |p| && !p[x]
    ensures Runs(p[..x + 1]) == Runs(p[..x])
  {
    var px := p[..x + 1];
    assert px[..x] == p[..x];
    RunsStepLight(px);
  }

  lemma ScanOpen(p: seq<bool>, x: int)
    requires 0 <= x < |p| && p[x] && (x == 0 || !p[x - 1])
    ensures Runs(p[..x + 1]) == Runs(p[..x]) + [Run(x, 1)]
  {
    var px := p[..x + 1];
    assert px[..x] == p[..x];
    RunsStepOpen(px);
  }

  lemma ScanExtend(p: seq<bool>, x: int, bars: seq<Run>, startX: int)
    requires 0 <= startX < x < |p| && p[x] && p[x - 1]
    requires bars + [Run(startX, x - startX)] == Runs(p[..x])
    ensures bars + [Run(startX, x + 1 - startX)] == Runs(p[..x + 1])
  {
    var px := p[..x + 1];
    assert px[..x] == p[..x];
    RunsStepExtend(px);
    AppendOneParts(bars, Run(startX, x - startX));
  }

  /** The black rectangles of renderBarcodeSVG: the loop walks one column past
      the row, where no bar is read, so that a run reaching the right edge is
      closed too. */
  method ScanBars(p: seq<bool>) returns (bars: seq<Run>)
    ensures bars == Runs(p)
    ensures IsRunCover(p, bars)
  {
    bars := [];
    var startX := -1;
    var x := 0;
    while x <= |p|
      invariant 0 <= x <= |p| + 1
      invariant x <= |p| && startX == -1 ==> bars == Runs(p[..x]) && (x == 0 || !p[x - 1])
      invariant x <= |p| && startX != -1 ==>
                  0 <= startX < x && p[x - 1] && bars + [Run(startX, x - startX)] == Runs(p[..x])
      invariant x == |p| + 1 ==> startX == -1 && bars == Runs(p)
      decreases |p| + 1 - x
    {
      var isBar := false;
      if x < |p| {
        isBar := p[x];
        if !isBar {
          ScanLight(p, x);
        } else if startX == -1 {
          ScanOpen(p, x);
        } else {
          ScanExtend(p, x, bars, startX);
        }
      } else {
        assert p[..x] == p;
      }
      if isBar && startX == -1 {
        startX := x;
      } else if !isBar && startX != -1 {
        bars := bars + [Run(startX, x - startX)];
        startX := -1;
      }
      x := x + 1;
    }
    RunsAreRunCover(p);
  }

  // ---------------------------------------------------------------------------
  // Escaping the caption

  /** `strings.ReplaceAll(s, string(c), rep)` for a one-byte pattern. */
  function ReplaceAll(s: seq<byte>, c: byte, rep: seq<byte>): (r: seq<byte>)
    ensures c !in rep ==> c !in r
    ensures forall b :: b in r && b != c && b !in rep ==> b in s
  {
    if |s| == 0 then []
    else (if s[0] == c then rep else [s[0]]) + ReplaceAll(s[1..], c, rep)
  }

  lemma {:induction false} ReplaceAllAppend(a: seq<byte>, b: seq<byte>, c: byte, rep: seq<byte>)
    ensures ReplaceAll(a + b, c, rep) == ReplaceAll(a, c, rep) + ReplaceAll(b, c, rep)
  {
    if |a| == 0 {
      assert a + b == b;
    } else {
      assert (a + b)[1..] == a[1..] + b;
      ReplaceAllAppend(a[1..], b, c, rep);
    }
  }

  const Amp: byte := '&' as int
  const Lt: byte := '<' as int
  const Gt: byte := '>' as int
  const Quot: byte := '"' as int
  const Apos: byte := '\'' as int

  const Semicolon: byte := ';' as int

  /** "&amp;", "&lt;", "&gt;", "&quot;" and "&apos;", byte by byte. */
  const AmpEntity: seq<byte> := [Amp, 'a' as int, 'm' as int, 'p' as int, Semicolon]
  const LtEntity: seq<byte> := [Amp, 'l' as int, 't' as int, Semicolon]
  const GtEntity: seq<byte> := [Amp, 'g' as int, 't' as int, Semicolon]
  const QuotEntity: seq<byte> := [Amp, 'q' as int, 'u' as int, 'o' as int, 't' as int, Semicolon]
  const AposEntity: seq<byte> := [Amp, 'a' as int, 'p' as int, 'o' as int, 's' as int, Semicolon]

  /** barcodeSVGEscape: five replacements, ampersand first. */
  function SvgEscape(s: seq<byte>): seq<byte> {
    var s1 := ReplaceAll(s, Amp, AmpEntity);
    var s2 := ReplaceAll(s1, Lt, LtEntity);
    var s3 := ReplaceAll(s2, Gt, GtEntity);
    var s4 := ReplaceAll(s3, Quot, QuotEntity);
    ReplaceAll(s4, Apos, AposEntity)
  }

  /** The XML escape of one byte. */
  function EscapeByte(b: byte): seq<byte> {
    if b == Amp then AmpEntity
    else if b == Lt then LtEntity
    else if b == Gt then GtEntity
    else if b == Quot then QuotEntity
    else if b == Apos then AposEntity
    else [b]
  }

  /** Every byte replaced by its escape, independently of its neighbours. */
  function EscapeEach(s: seq<byte>): seq<byte> {
    if |s| == 0 then [] else EscapeByte(s[0]) + EscapeEach(s[1..])
  }

  lemma ReplaceAllSingle(b: byte, c: byte, rep: seq<byte>)
    ensures ReplaceAll([b], c, rep) == if b == c then rep else [b]
  {
    assert [b][1..] == [];
  }

  lemma {:induction false} ReplaceAllAbsent(s: seq<byte>, c: byte, rep: seq<byte>)
    requires c !in s
    ensures ReplaceAll(s, c, rep) == s
  {
    if |s| > 0 {
      ReplaceAllAbsent(s[1..], c, rep);
      assert s == [s[0]] + s[1..];
    }
  }

  /** The passes after the one that wrote an entity leave it alone. */
  lemma EscapeAmpSingle()
    ensures SvgEscape([Amp]) == AmpEntity
  {
    ReplaceAllSingle(Amp, Amp, AmpEntity);
    ReplaceAllAbsent(AmpEntity, Lt, LtEntity);
    ReplaceAllAbsent(AmpEntity, Gt, GtEntity);
    ReplaceAllAbsent(AmpEntity, Quot, QuotEntity);
    ReplaceAllAbsent(AmpEntity, Apos, AposEntity);
  }

  /** The five passes on a single byte give its escape. */
  lemma SvgEscapeSingle(b: byte)
    ensures SvgEscape([b]) == EscapeByte(b)
  {
    if b == Amp {
      EscapeAmpSingle();
    } else {
      ReplaceAllSingle(b, Amp, AmpEntity);
      var s1 := ReplaceAll([b], Amp, AmpEntity);
      assert s1 == [b];
      var s2 := ReplaceAll(s1, Lt, LtEntity);
      ReplaceAllSingle(b, Lt, LtEntity);
      if b == Lt {
        assert s2 == LtEntity;
        ReplaceAllAbsent(LtEntity, Gt, GtEntity);
        ReplaceAllAbsent(LtEntity, Quot, QuotEntity);
        ReplaceAllAbsent(LtEntity, Apos, AposEntity);
      } else {
        assert s2 == [b];
        var s3 := ReplaceAll(s2, Gt, GtEntity);
        ReplaceAllSingle(b, Gt, GtEntity);
        if b == Gt {
          assert s3 == GtEntity;
          ReplaceAllAbsent(GtEntity, Quot, QuotEntity);
          ReplaceAllAbsent(GtEntity, Apos, AposEntity);
        } else {
          assert s3 == [b];
          var s4 := ReplaceAll(s3, Quot, QuotEntity);
          ReplaceAllSingle(b, Quot, QuotEntity);
          if b == Quot {
            assert s4 == QuotEntity;
            ReplaceAllAbsent(QuotEntity, Apos, AposEntity);
          } else {
            assert s4 == [b];
            ReplaceAllSingle(b, Apos, AposEntity);
          }
        }
      }
    }
  }

  lemma SvgEscapeAppend(a: seq<byte>, b: seq<byte>)
    ensures SvgEscape(a + b) == SvgEscape(a) + SvgEscape(b)
  {
    ReplaceAllAppend(a, b, Amp, AmpEntity);
    var a1, b1 := ReplaceAll(a, Amp, AmpEntity), ReplaceAll(b, Amp, AmpEntity);
    ReplaceAllAppend(a1, b1, Lt, LtEntity);
    var a2, b2 := ReplaceAll(a1, Lt, LtEntity), ReplaceAll(b1, Lt, LtEntity);
    ReplaceAllAppend(a2, b2, Gt, GtEntity);
    var a3, b3 := ReplaceAll(a2, Gt, GtEntity), ReplaceAll(b2, Gt, GtEntity);
    ReplaceAllAppend(a3, b3, Quot, QuotEntity);
    var a4, b4 := ReplaceAll(a3, Quot, QuotEntity), ReplaceAll(b3, Quot, QuotEntity);
    ReplaceAllAppend(a4, b4, Apos, AposEntity);
  }

  /** Replacing the ampersand first is what makes the chain correct: no later
      replacement touches the text an earlier one wrote, so the five passes
      escape every byte on its own. */
  lemma {:induction false} SvgEscapeIsEscapeEach(s: seq<byte>)
    ensures SvgEscape(s) == EscapeEach(s)
  {
    if |s| > 0 {
      assert s == [s[0]] + s[1..];
      SvgEscapeAppend([s[0]], s[1..]);
      SvgEscapeIsEscapeEach(s[1..]);
      SvgEscapeSingle(s[0]);
    }
  }

  /** XML's decoding of the five predefined entities. */
  function Unescape(s: seq<byte>): seq<byte>
    decreases |s|
  {
    if |s| == 0 then []
    else if |s| >= 5 && s[..5] == AmpEntity then [Amp] + Unescape(s[5..])
    else if |s| >= 4 && s[..4] == LtEntity then [Lt] + Unescape(s[4..])
    else if |s| >= 4 && s[..4] == GtEntity then [Gt] + Unescape(s[4..])
    else if |s| >= 6 && s[..6] == QuotEntity then [Quot] + Unescape(s[6..])
    else if |s| >= 6 && s[..6] == AposEntity then [Apos] + Unescape(s[6..])
    else [s[0]] + Unescape(s[1..])
  }

  // Decoding an escape followed by any text, one escape at a time.

  lemma UnescapeAmp(rest: seq<byte>)
    ensures Unescape(AmpEntity + rest) == [Amp] + Unescape(rest)
  {
    var t := AmpEntity + rest;
    assert t[..5] == AmpEntity && t[5..] == rest;
  }

  lemma UnescapeLt(rest: seq<byte>)
    ensures Unescape(LtEntity + rest) == [Lt] + Unescape(rest)
  {
    var t := LtEntity + rest;
    assert |t| >= 5 ==> t[..5][1] != AmpEntity[1];
    assert t[..4] == LtEntity && t[4..] == rest;
  }

  lemma UnescapeGt(rest: seq<byte>)
    ensures Unescape(GtEntity + rest) == [Gt] + Unescape(rest)
  {
    var t := GtEntity + rest;
    assert |t| >= 5 ==> t[..5][1] != AmpEntity[1];
    assert t[..4][1] != LtEntity[1];
    assert t[..4] == GtEntity && t[4..] == rest;
  }

  lemma UnescapeQuot(rest: seq<byte>)
    ensures Unescape(QuotEntity + rest) == [Quot] + Unescape(rest)
  {
    var t := QuotEntity + rest;
    assert t[..5][1] != AmpEntity[1];
    assert t[..4][1] != LtEntity[1] && t[..4][1] != GtEntity[1];
    assert t[..6] == QuotEntity && t[6..] == rest;
  }

  lemma UnescapeApos(rest: seq<byte>)
    ensures Unescape(AposEntity + rest) == [Apos] + Unescape(rest)
  {
    var t := AposEntity + rest;
    assert t[..5][2] != AmpEntity[2];
    assert t[..4][1] != LtEntity[1] && t[..4][1] != GtEntity[1];
    assert t[..6][1] != QuotEntity[1];
    assert t[..6] == AposEntity && t[6..] == rest;
  }

  /** A byte other than "&" starts no entity, so it decodes as itself. */
  lemma UnescapePlain(b: byte, rest: seq<byte>)
    requires b != Amp
    ensures Unescape([b] + rest) == [b] + Unescape(rest)
  {
    var t := [b] + rest;
    assert |t| >= 5 ==> t[..5][0] != AmpEntity[0];
    assert |t| >= 4 ==> t[..4][0] != LtEntity[0] && t[..4][0] != GtEntity[0];
    assert |t| >= 6 ==> t[..6][0] != QuotEntity[0] && t[..6][0] != AposEntity[0];
    assert t[1..] == rest;
  }

  lemma UnescapeEscapeByte(b: byte, rest: seq<byte>)
    ensures Unescape(EscapeByte(b) + rest) == [b] + Unescape(rest)
  {
    if b == Amp {
      UnescapeAmp(rest);
    } else if b == Lt {
      UnescapeLt(rest);
    } else if b == Gt {
      UnescapeGt(rest);
    } else if b == Quot {
      UnescapeQuot(rest);
    } else if b == Apos {
      UnescapeApos(rest);
    } else {
      UnescapePlain(b, rest);
    }
  }

  /** A reader of the SVG gets the caption's bytes back exactly. */
  lemma {:induction false} UnescapeSvgEscape(s: seq<byte>)
    ensures Unescape(SvgEscape(s)) == s
  {
    SvgEscapeIsEscapeEach(s);
    EscapeEachRoundTrip(s);
  }

  lemma {:induction false} EscapeEachRoundTrip(s: seq<byte>)
    ensures Unescape(EscapeEach(s)) == s
  {
    if |s| > 0 {
      EscapeEachRoundTrip(s[1..]);
      UnescapeEscapeByte(s[0], EscapeEach(s[1..]));
      assert s == [s[0]] + s[1..];
    }
  }

  /** The escaped caption holds no byte that could end the text element or a
      quoted attribute. */
  lemma SvgEscapeIsSafe(s: seq<byte>)
    ensures Lt !in SvgEscape(s) && Gt !in SvgEscape(s)
    ensures Quot !in SvgEscape(s) && Apos !in SvgEscape(s)
  {
    var s1 := ReplaceAll(s, Amp, AmpEntity);
    var s2 := ReplaceAll(s1, Lt, LtEntity);
    var s3 := ReplaceAll(s2, Gt, GtEntity);
    var s4 := ReplaceAll(s3, Quot, QuotEntity);
    var s5 := ReplaceAll(s4, Apos, AposEntity);
    assert Lt !in s2;
    assert Lt !in s3 && Gt !in s3;
    assert Lt !in s4 && Gt !in s4 && Quot !in s4;
    assert Lt !in s5 && Gt !in s5 && Quot !in s5 && Apos !in s5;
  }

  // ---------------------------------------------------------------------------
  // The document

  /** renderBarcodeSVG: a canvas `width` wide and `height` tall, 20 more with
      the caption, every maximal dark run as a bar of the full barcode height,
      and the escaped caption centred at width / 2 (Go's division), 18 below the bars. */
  method RenderBarcodeSvg(p: seq<bool>, width: int, height: int, includeText: bool, text: seq<byte>)
    returns (img: SvgImage)
    ensures img.width == width && img.barHeight == height
    ensures img.totalHeight == if includeText then height + TextPaddingHeight else height
    ensures img.bars == Runs(p) && IsRunCover(p, img.bars)
    ensures img.caption.Some? <==> includeText
    ensures includeText ==> img.caption.value == Caption(GoDiv(width, 2), height + TextPaddingHeight - 2, SvgEscape(text))
    ensures includeText ==> Unescape(img.caption.value.text) == text
  {
    var totalHeight := height;
    var barcodeHeight := height;
    if includeText {
      totalHeight := height + TextPaddingHeight;
    }
    var bars := ScanBars(p);
    var caption := None;
    if includeText {
      var textY := barcodeHeight + TextPaddingHeight - 2;
      caption := Some(Caption(GoDiv(width, 2), textY, SvgEscape(text)));
      UnescapeSvgEscape(text);
    }
    img := SvgImage(width, totalHeight, bars, barcodeHeight, caption);
  }
}
