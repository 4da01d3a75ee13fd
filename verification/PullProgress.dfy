/** Throttled image-pull progress lines. */
module PullProgress {
  import opened Sums

  const TWO_63 := 0x8000_0000_0000_0000
  const TWO_64 := 0x1_0000_0000_0000_0000

  /** The int64 value of an integer result. */
  function W64(x: int): int { (x + TWO_63) % TWO_64 - TWO_63 }

  /** Integer division truncating toward zero. */
  function TruncDiv(x: int, y: int): int
    requires y != 0
  {
    if x >= 0 then x / y else -((-x) / y)
  }

  datatype Status = Downloading | DownloadComplete | Extracting | PullComplete | Other

  predicate OfDownload(s: Status) { s == Downloading || s == DownloadComplete }
  predicate OfExtraction(s: Status) { s == Extracting || s == PullComplete }

  datatype Message = Message(status: Status, id: string, current: int, total: int)

  datatype Layer = Layer(current: int, total: int)

  type Layers = map<string, Layer>

  /** The layers after recording a progress detail, and after pinning a layer to its total. */
  function WithLayer(layers: Layers, id: string, current: int, total: int): Layers
  {
    if id != "" && total > 0 then layers[id := Layer(current, total)] else layers
  }

  function Finalized(layers: Layers, id: string): Layers
  {
    if id != "" && id in layers && layers[id].total > 0
    then layers[id := Layer(layers[id].total, layers[id].total)]
    else layers
  }

  /** What one message does to the extraction layers. */
  function ExtractAfter(layers: Layers, m: Message): Layers
  {
    match m.status
    case Extracting => WithLayer(layers, m.id, m.current, m.total)
    case PullComplete => Finalized(layers, m.id)
    case _ => layers
  }

  /** What one message does to the download layers. */
  function DownloadAfter(layers: Layers, m: Message): Layers
  {
    match m.status
    case Downloading => WithLayer(layers, m.id, m.current, m.total)
    case DownloadComplete => Finalized(layers, m.id)
    case PullComplete => Finalized(layers, m.id)
    case _ => layers
  }

  /** The extraction layers after the first n messages of a pull. */
  function ExtractLayers(messages: seq<(Message, int)>, n: nat): Layers
    requires n <= |messages|
  {
    if n == 0 then map[] else ExtractAfter(ExtractLayers(messages, n - 1), messages[n - 1].0)
  }

  function DownloadLayers(messages: seq<(Message, int)>, n: nat): Layers
    requires n <= |messages|
  {
    if n == 0 then map[] else DownloadAfter(DownloadLayers(messages, n - 1), messages[n - 1].0)
  }

  /** Message j is the last of the first n that says anything about id in the extraction,
      respectively the download. */
  ghost predicate LastExtracting(messages: seq<(Message, int)>, n: nat, j: nat)
    requires j < n <= |messages|
  {
    && messages[j].0.status == Extracting
    && forall k :: j < k < n && messages[k].0.id == messages[j].0.id ==>
         messages[k].0.status != Extracting && messages[k].0.status != PullComplete
  }

  ghost predicate LastDownloading(messages: seq<(Message, int)>, n: nat, j: nat)
    requires j < n <= |messages|
  {
    && messages[j].0.status == Downloading
    && forall k :: j < k < n && messages[k].0.id == messages[j].0.id ==>
         !OfDownload(messages[k].0.status) && messages[k].0.status != PullComplete
  }

  /** A layer is at what its last message reported. */
  lemma {:induction false} LayerShowsLastReport(messages: seq<(Message, int)>, n: nat, j: nat)
    requires j < n <= |messages| && messages[j].0.id != "" && messages[j].0.total > 0
    ensures var m := messages[j].0;
            && (LastExtracting(messages, n, j) ==>
                  m.id in ExtractLayers(messages, n)
                  && ExtractLayers(messages, n)[m.id] == Layer(m.current, m.total))
            && (LastDownloading(messages, n, j) ==>
                  m.id in DownloadLayers(messages, n)
                  && DownloadLayers(messages, n)[m.id] == Layer(m.current, m.total))
  {
    if j < n - 1 {
      LayerShowsLastReport(messages, n - 1, j);
    }
  }

  function CurrentOf(): Layer -> int { (l: Layer) => l.current }
  function TotalOf(): Layer -> int { (l: Layer) => l.total }

  /** The percentage the tracker computes from its layers, in int64 arithmetic; None
      while no layer size is known. */
  datatype Percentage = Unknown | Percent(pct: int)

  function PercentOf(cur: int, tot: int): Percentage
  {
    if tot == 0 then Unknown
    else
      var pct := TruncDiv(W64(cur * 100), tot);
      Percent(if pct > 100 then 100 else pct)
  }

  ghost function Progress(layers: Layers): Percentage
  {
    PercentOf(W64(Total(CurrentOf(), layers)), W64(Total(TotalOf(), layers)))
  }

  ghost predicate Sane(layers: Layers)
  {
    && (forall id :: id in layers ==> layers[id].current >= 0 && layers[id].total > 0)
    && Total(CurrentOf(), layers) * 100 < TWO_63
    && Total(TotalOf(), layers) < TWO_63
  }

  lemma {:induction false} TotalsNonNegative(layers: Layers)
    requires forall id :: id in layers ==> layers[id].current >= 0 && layers[id].total > 0
    ensures Total(CurrentOf(), layers) >= 0
    ensures Total(TotalOf(), layers) >= 0
    ensures Total(TotalOf(), layers) == 0 <==> layers == map[]
    decreases |layers|
  {
    if layers != map[] {
      var k :| k in layers;
      TotalRemove(CurrentOf(), layers, k);
      TotalRemove(TotalOf(), layers, k);
      assert (layers - {k}).Keys == layers.Keys - {k};
      TotalsNonNegative(layers - {k});
    }
  }

  /** For byte counts that fit, the computed percentage is the true one, capped at 100. */
  lemma PercentageIsTrue(layers: Layers)
    requires Sane(layers) && layers != map[]
    ensures var cur := Total(CurrentOf(), layers);
            var tot := Total(TotalOf(), layers);
            && tot > 0
            && Progress(layers) == Percent(if cur * 100 / tot > 100 then 100 else cur * 100 / tot)
            && (Progress(layers) == Percent(100) <==> cur >= tot)
  {
    TotalsNonNegative(layers);
    var cur := Total(CurrentOf(), layers);
    var tot := Total(TotalOf(), layers);
    Fits(cur);
    Fits(tot);
    Fits(cur * 100);
    PercentOfExact(cur, tot);
  }

  lemma Fits(x: int)
    requires -TWO_63 <= x < TWO_63
    ensures W64(x) == x
  {
  }

  lemma PercentOfExact(cur: int, tot: int)
    requires tot > 0 && cur >= 0 && W64(cur * 100) == cur * 100
    ensures PercentOf(cur, tot) == Percent(if cur * 100 / tot > 100 then 100 else cur * 100 / tot)
    ensures PercentOf(cur, tot) == Percent(100) <==> cur >= tot
  {
    HundredPercent(cur, tot);
  }

  lemma HundredPercent(cur: int, tot: int)
    requires tot > 0 && cur >= 0
    ensures cur * 100 / tot >= 100 <==> cur >= tot
  {
    var q, r := cur * 100 / tot, cur * 100 % tot;
    assert cur * 100 == q * tot + r;
    if q >= 100 {
      ProductMonotone(100, q, tot);
    } else {
      ProductMonotone(q + 1, 100, tot);
      assert (q + 1) * tot == q * tot + tot;
    }
  }

  lemma ProductMonotone(x: int, y: int, b: int)
    requires x <= y && b > 0
    ensures x * b <= y * b
  {
  }

  // ----- a finished pull -------------------------------------------------------------------

  /** Among the first n messages the layer's last one of its extraction says it is complete. */
  predicate Finished(messages: seq<(Message, int)>, n: nat, id: string)
    requires n <= |messages|
  {
    n > 0 &&
    var m := messages[n - 1].0;
    if m.id == id && m.status == PullComplete then true
    else !(m.id == id && m.status == Extracting) && Finished(messages, n - 1, id)
  }

  lemma {:induction false} FinishedLayerIsFull(messages: seq<(Message, int)>, n: nat, id: string)
    requires n <= |messages|
    ensures forall l :: l in ExtractLayers(messages, n) ==> ExtractLayers(messages, n)[l].total > 0 && l != ""
    ensures Finished(messages, n, id) && id in ExtractLayers(messages, n) ==>
              ExtractLayers(messages, n)[id].current == ExtractLayers(messages, n)[id].total
  {
    if n > 0 {
      FinishedLayerIsFull(messages, n - 1, id);
    }
  }

  lemma {:induction false} FullTotals(layers: Layers)
    requires forall id :: id in layers ==> layers[id].current == layers[id].total
    ensures Total(CurrentOf(), layers) == Total(TotalOf(), layers)
    decreases |layers|
  {
    if layers != map[] {
      var k :| k in layers;
      TotalRemove(CurrentOf(), layers, k);
      TotalRemove(TotalOf(), layers, k);
      assert (layers - {k}).Keys == layers.Keys - {k};
      FullTotals(layers - {k});
    }
  }

  /** When every layer seen has finished, the aggregate is 100, which is never held back. */
  lemma FinishedPullIsHundred(messages: seq<(Message, int)>)
    requires ExtractLayers(messages, |messages|) != map[]
    requires forall id :: id in ExtractLayers(messages, |messages|) ==> Finished(messages, |messages|, id)
    requires Sane(ExtractLayers(messages, |messages|))
    ensures Progress(ExtractLayers(messages, |messages|)) == Percent(100)
  {
    var layers := ExtractLayers(messages, |messages|);
    forall id | id in layers ensures layers[id].current == layers[id].total {
      FinishedLayerIsFull(messages, |messages|, id);
    }
    FullTotals(layers);
    PercentageIsTrue(layers);
  }

  /** An emitted summary line: its percentage and when it was emitted. */
  datatype Line = Line(pct: int, at: int, cur: int, tot: int)

  /** The line shows the phase's totals beside the percentage. */
  ghost function LineFor(layers: Layers, pct: int, now: int): Line
  {
    Line(pct, now, W64(Total(CurrentOf(), layers)), W64(Total(TotalOf(), layers)))
  }

  datatype Emission = Quiet | Emit(line: Line)

  /** The emission rule: forced at 100, a move of at least 5 points, or minGap elapsed. */
  predicate Due(pct: int, lastPct: int, now: int, lastEmit: int, minGap: int)
  {
    || (pct >= 100 && lastPct < 100)
    || pct - lastPct >= 5 || lastPct - pct >= 5
    || now - lastEmit >= minGap
  }

  /** Consecutive lines closer than minGap moved by at least 5 points or reached 100. */
  ghost predicate Spaced(lines: seq<Line>, minGap: int)
  {
    forall i :: 0 < i < |lines| ==>
      || lines[i].at - lines[i - 1].at >= minGap
      || lines[i].pct - lines[i - 1].pct >= 5 || lines[i - 1].pct - lines[i].pct >= 5
      || (lines[i].pct == 100 && lines[i - 1].pct < 100)
  }

  /** What was last shown is within 4 points of the truth, and 100 is never held back. */
  ghost predicate CloseTo(lines: seq<Line>, layers: Layers)
  {
    match Progress(layers)
    case Unknown => true
    case Percent(pct) =>
      && |lines| > 0 && -4 <= pct - lines[|lines| - 1].pct <= 4
      && (pct == 100 ==> lines[|lines| - 1].pct == 100)
  }

  /** If any size is known, the last line shown is younger than minGap. */
  ghost predicate Recent(lines: seq<Line>, layers: Layers, now: int, minGap: int)
  {
    Progress(layers).Percent? && minGap > 0 ==> |lines| > 0 && now - lines[|lines| - 1].at < minGap
  }

  lemma SpacedSnoc(lines: seq<Line>, lastPct: int, lastEmit: int, l: Line, minGap: int)
    requires Spaced(lines, minGap) && l.pct <= 100 && Due(l.pct, lastPct, l.at, lastEmit, minGap)
    requires |lines| > 0 ==> lastPct == lines[|lines| - 1].pct && lastEmit == lines[|lines| - 1].at
    ensures Spaced(lines + [l], minGap)
  {
  }

  /** Right after a message its phase's last line is close and recent. */
  ghost predicate ToldOf(m: Message, now: int, download: Shown, extract: Shown, minGap: int)
  {
    && (OfExtraction(m.status) ==> Recent(extract.lines, extract.layers, now, minGap))
    && (OfDownload(m.status) ==>
          CloseTo(download.lines, download.layers) && Recent(download.lines, download.layers, now, minGap))
  }

  /** One phase's aggregate and throttle state (download or extraction). */
  class Phase {
    var layers: Layers
    var lastPct: int
    var lastEmit: int
    /** Every line emitted for this phase. */
    ghost var lines: seq<Line>

    ghost predicate Valid(minGap: int)
      reads this
    {
      && lastPct <= 100
      && (|lines| == 0 ==> lastPct == -1 && lastEmit == 0)
      && (|lines| > 0 ==> lastPct == lines[|lines| - 1].pct && lastEmit == lines[|lines| - 1].at)
      && (forall i :: 0 <= i < |lines| ==> lines[i].pct <= 100)
      && Spaced(lines, minGap)
    }

    ghost predicate UpToDate()
      reads this
    {
      CloseTo(lines, layers)
    }

    ghost predicate RecentAt(now: int, minGap: int)
      reads this
    {
      Recent(lines, layers, now, minGap)
    }

    ghost function Now(): Shown
      reads this
    {
      Shown(layers, lines)
    }

    constructor ()
      ensures layers == map[] && lines == [] && lastPct == -1 && lastEmit == 0
    {
      layers, lastPct, lastEmit, lines := map[], -1, 0, [];
    }

    method SetLayer(id: string, current: int, total: int)
      modifies this`layers
      ensures layers == WithLayer(old(layers), id, current, total)
    {
      if id != "" && total > 0 {
        layers := layers[id := Layer(current, total)];
      }
    }

    /** finalizeLayer: pins a known layer to its total. */
    method FinalizeLayer(id: string)
      modifies this`layers
      ensures layers == Finalized(old(layers), id)
    {
      if id == "" {
        return;
      }
      var lp := if id in layers then layers[id] else Layer(0, 0);
      if lp.total > 0 {
        layers := layers[id := Layer(lp.total, lp.total)];
      }
    }

    /** Folds the layers in map-iteration order with wrapping additions. */
    method Aggregate() returns (cur: int, tot: int)
      ensures cur == W64(Total(CurrentOf(), layers)) && tot == W64(Total(TotalOf(), layers))
    {
      cur, tot := 0, 0;
      var todo := layers.Keys;
      assert layers - todo == map[];
      while todo != {}
        invariant todo <= layers.Keys
        invariant cur == W64(Total(CurrentOf(), layers - todo)) && tot == W64(Total(TotalOf(), layers - todo))
      {
        var id :| id in todo;
        ghost var done := layers - todo;
        todo := todo - {id};
        TotalRemove(CurrentOf(), layers - todo, id);
        TotalRemove(TotalOf(), layers - todo, id);
        assert layers - todo - {id} == done;
        WrapAdd(Total(CurrentOf(), done), layers[id].current);
        WrapAdd(Total(TotalOf(), done), layers[id].total);
        cur := W64(cur + layers[id].current);
        tot := W64(tot + layers[id].total);
      }
      assert layers - {} == layers;
    }

    /** The percentage of the aggregate, if any size is known. */
    method Percentage() returns (known: bool, pct: int, cur: int, tot: int)
      ensures Progress(layers) == if known then Percent(pct) else Unknown
      ensures known ==> pct <= 100
      ensures cur == W64(Total(CurrentOf(), layers)) && tot == W64(Total(TotalOf(), layers))
    {
      cur, tot := Aggregate();
      known, pct := tot != 0, 0;
      if known {
        pct := TruncDiv(W64(cur * 100), tot);
        if pct > 100 {
          pct := 100;
        }
      }
    }

    /** emitPhase. Nothing is assumed about the clock beyond the first line being due:
        the zero lastEmit lies at least minGap in the past. */
    method EmitPhase(now: int, minGap: int) returns (e: Emission)
      requires Valid(minGap) && now >= minGap
      modifies this`lastPct, this`lastEmit, this`lines
      ensures Valid(minGap) && UpToDate() && RecentAt(now, minGap)
      ensures lines == old(lines) + LineOf(e) && Truthful(e, now, layers)
      ensures match Progress(layers)
              case Unknown => e == Quiet && lines == old(lines) && lastPct == old(lastPct) && lastEmit == old(lastEmit)
              case Percent(pct) =>
                && (e.Emit? <==> Due(pct, old(lastPct), now, old(lastEmit), minGap))
                && (e.Emit? ==> e.line == LineFor(layers, pct, now) && lines == old(lines) + [e.line])
                && (e.Quiet? ==> lines == old(lines) && lastPct == old(lastPct) && lastEmit == old(lastEmit))
    {
      var known, pct, cur, tot := Percentage();
      if !known {
        return Quiet;
      }
      var forced := pct >= 100 && lastPct < 100;
      var bigJump := pct - lastPct >= 5 || lastPct - pct >= 5;
      var timeUp := now - lastEmit >= minGap;
      if !forced && !bigJump && !timeUp {
        return Quiet;
      }
      e := Emit(Line(pct, now, cur, tot));
      SpacedSnoc(lines, lastPct, lastEmit, e.line, minGap);
      lastPct, lastEmit := pct, now;
      lines := lines + [e.line];
    }
  }

  lemma WrapAdd(x: int, y: int)
    ensures W64(W64(x) + y) == W64(x + y)
  {
    var a := (x + TWO_63) % TWO_64;
    var q := (x + TWO_63) / TWO_64;
    assert x + TWO_63 == q * TWO_64 + a;
    assert x + y + TWO_63 == (a + y) + q * TWO_64;
    ModShift(a + y, q);
  }

  lemma ModShift(x: int, q: int)
    ensures (x + q * TWO_64) % TWO_64 == x % TWO_64
  {
  }

  /** What a phase holds and has shown. */
  datatype Shown = Shown(layers: Layers, lines: seq<Line>)

  function LineOf(e: Emission): seq<Line> { if e.Emit? then [e.line] else [] }

  /** One message: the layers it names, and at most one line, of its own phase. */
  predicate Tracked(m: Message, e: Emission, download: Shown, extract: Shown, download': Shown, extract': Shown)
  {
    && download' == Shown(DownloadAfter(download.layers, m),
                          if OfDownload(m.status) then download.lines + LineOf(e) else download.lines)
    && extract' == Shown(ExtractAfter(extract.layers, m),
                         if OfExtraction(m.status) then extract.lines + LineOf(e) else extract.lines)
    && (m.status == Other ==> e == Quiet)
  }

  /** An emitted line shows its phase's aggregate at that moment. */
  ghost predicate Truthful(e: Emission, now: int, layers: Layers)
  {
    e.Emit? ==> Progress(layers) == Percent(e.line.pct) && e.line == LineFor(layers, e.line.pct, now)
  }

  class Tracker {
    const download: Phase
    const extract: Phase
    const minGap: int

    ghost predicate Valid()
      reads this, download, extract
    {
      && download != extract && minGap > 0
      && download.Valid(minGap) && extract.Valid(minGap) && extract.UpToDate()
    }

    constructor (minGap: int)
      requires minGap > 0
      ensures Valid() && fresh(download) && fresh(extract) && this.minGap == minGap
      ensures download.lines == [] && extract.lines == [] && extract.layers == map[] && download.layers == map[]
    {
      download := new Phase();
      extract := new Phase();
      this.minGap := minGap;
      new;
      assert Total(CurrentOf(), extract.layers) == 0 && Total(TotalOf(), extract.layers) == 0;
    }

    /** update. The extraction line is up to date after every message of any stream;
        OnDownload says the same of the download line right after a download message. */
    method Update(m: Message, now: int) returns (e: Emission)
      requires Valid() && now >= minGap
      modifies download, extract
      ensures Valid()
      ensures Tracked(m, e, old(download.Now()), old(extract.Now()), download.Now(), extract.Now())
      ensures Truthful(e, now, if OfDownload(m.status) then download.layers else extract.layers)
      ensures ToldOf(m, now, download.Now(), extract.Now(), minGap)
    {
      match m.status
      case Downloading | DownloadComplete => e := OnDownload(m, now);
      case Extracting => e := OnExtraction(m, now);
      case PullComplete => e := OnPullComplete(m, now);
      case Other => e := Quiet;
    }

    method OnDownload(m: Message, now: int) returns (e: Emission)
      requires Valid() && now >= minGap && OfDownload(m.status)
      modifies download
      ensures Valid() && download.UpToDate() && download.RecentAt(now, minGap)
      ensures Tracked(m, e, old(download.Now()), old(extract.Now()), download.Now(), extract.Now())
      ensures Truthful(e, now, download.layers)
    {
      if m.status == Downloading {
        download.SetLayer(m.id, m.current, m.total);
      } else {
        download.FinalizeLayer(m.id);
      }
      assert download.layers == DownloadAfter(old(download.layers), m);
      e := download.EmitPhase(now, minGap);
    }

    /** Finishes the download layer without a download line, then the extraction layer. */
    method OnPullComplete(m: Message, now: int) returns (e: Emission)
      requires Valid() && now >= minGap && m.status == PullComplete
      modifies download, extract
      ensures Valid()
      ensures Tracked(m, e, old(download.Now()), old(extract.Now()), download.Now(), extract.Now())
      ensures Truthful(e, now, extract.layers) && extract.RecentAt(now, minGap)
    {
      download.FinalizeLayer(m.id);
      extract.FinalizeLayer(m.id);
      e := extract.EmitPhase(now, minGap);
    }

    method OnExtraction(m: Message, now: int) returns (e: Emission)
      requires Valid() && now >= minGap && m.status == Extracting
      modifies extract
      ensures Valid()
      ensures Tracked(m, e, old(download.Now()), old(extract.Now()), download.Now(), extract.Now())
      ensures Truthful(e, now, extract.layers) && extract.RecentAt(now, minGap)
    {
      extract.SetLayer(m.id, m.current, m.total);
      e := extract.EmitPhase(now, minGap);
    }

    /** The first k messages have been taken, and these lines shown. */
    ghost predicate Following(messages: seq<(Message, int)>, k: nat, lines: seq<Line>, downloads: seq<Line>)
      requires k <= |messages|
      reads this, download, extract
    {
      && Valid() && |lines| + |downloads| <= k
      && download.Now() == Shown(DownloadLayers(messages, k), downloads)
      && extract.Now() == Shown(ExtractLayers(messages, k), lines)
      && (k > 0 ==> ToldOf(messages[k - 1].0, messages[k - 1].1, download.Now(), extract.Now(), minGap))
    }

    method Take(messages: seq<(Message, int)>, k: nat, lines: seq<Line>, downloads: seq<Line>)
      returns (lines': seq<Line>, downloads': seq<Line>)
      requires k < |messages| && messages[k].1 >= minGap && Following(messages, k, lines, downloads)
      modifies download, extract
      ensures Following(messages, k + 1, lines', downloads')
    {
      lines', downloads' := lines, downloads;
      var e := Update(messages[k].0, messages[k].1);
      if OfExtraction(messages[k].0.status) {
        lines' := lines + LineOf(e);
      } else if OfDownload(messages[k].0.status) {
        downloads' := downloads + LineOf(e);
      }
    }
  }

  /** A whole pull: over any message stream the lines of each phase obey the spacing rule, and
      once a layer size is known the last extraction line is within 4 points of the aggregate,
      equal to it at 100, and right after an extraction message younger than minGap; right
      after a download message the same holds of the last download line. */
  method TrackAll(minGap: int, messages: seq<(Message, int)>) returns (lines: seq<Line>, downloads: seq<Line>)
    requires minGap > 0 && forall k :: 0 <= k < |messages| ==> messages[k].1 >= minGap
    ensures |lines| + |downloads| <= |messages| && Spaced(lines, minGap) && Spaced(downloads, minGap)
    ensures forall i :: 0 <= i < |lines| ==> lines[i].pct <= 100
    ensures CloseTo(lines, ExtractLayers(messages, |messages|))
    ensures messages != [] ==>
              ToldOf(messages[|messages| - 1].0, messages[|messages| - 1].1,
                     Shown(DownloadLayers(messages, |messages|), downloads),
                     Shown(ExtractLayers(messages, |messages|), lines), minGap)
  {
    var t := new Tracker(minGap);
    lines, downloads := [], [];
    assert t.download.Now() == Shown(map[], []) && t.extract.Now() == Shown(map[], []);
    for k := 0 to |messages|
      invariant t.Following(messages, k, lines, downloads)
      invariant fresh(t.download) && fresh(t.extract) && t.minGap == minGap
    {
      lines, downloads := t.Take(messages, k, lines, downloads);
    }
  }
}
