/** Splitting a byte stream into log lines, however the stream is cut into reads. */
module LineSplitting {

  /** One Read call: the bytes delivered and whether it also reported an error or EOF. */
  datatype Read = Read(data: string, err: bool)

  datatype Scanned = Scanned(lines: seq<string>, partial: string)

  function Step(sc: Scanned, c: char): Scanned
  {
    if c == '\n' then Scanned(sc.lines + [sc.partial], "") else sc.(partial := sc.partial + [c])
  }

  /** Complete lines of s, and the bytes after its last newline. */
  function Scan(s: string): Scanned
  {
    if |s| == 0 then Scanned([], "")
    else Step(Scan(s[..|s| - 1]), s[|s| - 1])
  }

  lemma ScanSnoc(s: string, c: char)
    ensures Scan(s + [c]) == Step(Scan(s), c)
  {
    assert (s + [c])[..|s|] == s;
  }

  function Lines(s: string): seq<string>
  {
    Scan(s).lines + if Scan(s).partial == "" then [] else [Scan(s).partial]
  }

  /** Each line followed by a newline. */
  function Unlines(lines: seq<string>): string
  {
    if |lines| == 0 then "" else Unlines(lines[..|lines| - 1]) + lines[|lines| - 1] + "\n"
  }

  predicate NewlineFree(s: string) { '\n' !in s }

  lemma UnlinesSnoc(lines: seq<string>, line: string)
    ensures Unlines(lines + [line]) == Unlines(lines) + line + "\n"
  {
    assert (lines + [line])[..|lines|] == lines;
  }

  lemma StepPieces(sc: Scanned, c: char)
    requires NewlineFree(sc.partial) && forall l :: l in sc.lines ==> NewlineFree(l)
    ensures Unlines(Step(sc, c).lines) + Step(sc, c).partial == Unlines(sc.lines) + sc.partial + [c]
    ensures NewlineFree(Step(sc, c).partial) && forall l :: l in Step(sc, c).lines ==> NewlineFree(l)
  {
    UnlinesSnoc(sc.lines, sc.partial);
    assert Unlines(sc.lines) + sc.partial + [c] == Unlines(sc.lines) + (sc.partial + [c]);
    assert Unlines(sc.lines + [sc.partial]) + "" == Unlines(sc.lines + [sc.partial]);
  }

  lemma {:induction false} ScanPieces(s: string)
    ensures Unlines(Scan(s).lines) + Scan(s).partial == s
    ensures NewlineFree(Scan(s).partial)
    ensures forall l :: l in Scan(s).lines ==> NewlineFree(l)
  {
    if |s| > 0 {
      var init, c := s[..|s| - 1], s[|s| - 1];
      assert init + [c] == s;
      ScanPieces(init);
      StepPieces(Scan(init), c);
    }
  }

  /** The only way to cut s into newline-free lines and a newline-free tail. */
  lemma {:induction false} ScanUnique(s: string, lines: seq<string>, partial: string)
    requires Unlines(lines) + partial == s
    requires NewlineFree(partial) && forall l :: l in lines ==> NewlineFree(l)
    ensures Scan(s) == Scanned(lines, partial)
    decreases |s|, |partial|
  {
    if |partial| > 0 {
      var m := |partial| - 1;
      assert partial == partial[..m] + [partial[m]];
      assert s == (Unlines(lines) + partial[..m]) + [partial[m]];
      ScanUnique(s[..|s| - 1], lines, partial[..m]);
    } else if |lines| > 0 {
      var k := |lines| - 1;
      assert s == (Unlines(lines[..k]) + lines[k]) + "\n";
      assert s[..|s| - 1] == Unlines(lines[..k]) + lines[k];
      ScanUnique(s[..|s| - 1], lines[..k], lines[k]);
      assert lines == lines[..k] + [lines[k]];
    }
  }

  /** Emitting the lines of s and putting a newline after each gives s back, up to one
      final newline, and every emitted line is newline-free. */
  lemma LinesRebuild(s: string)
    ensures Unlines(Lines(s)) == if s == "" || s[|s| - 1] == '\n' then s else s + "\n"
    ensures forall l :: l in Lines(s) ==> NewlineFree(l)
  {
    ScanPieces(s);
    var pieces := Scan(s);
    if pieces.partial != "" {
      assert Lines(s)[..|pieces.lines|] == pieces.lines;
      assert s[|s| - 1] == pieces.partial[|pieces.partial| - 1];
      assert Unlines(Lines(s)) == Unlines(pieces.lines) + pieces.partial + "\n" == s + "\n";
    } else {
      assert Lines(s) == pieces.lines;
      assert Unlines(pieces.lines) + "" == Unlines(pieces.lines);
    }
  }

  /** Conversely any newline-free lines, each terminated by a newline, are split into
      exactly those lines. */
  lemma UnlinesSplit(lines: seq<string>)
    requires forall l :: l in lines ==> NewlineFree(l)
    ensures Lines(Unlines(lines)) == lines
  {
    ScanUnique(Unlines(lines), lines, "");
  }

  /** Scanning can be resumed from the pending partial line. */
  lemma {:induction false} ScanResume(s: string, t: string)
    ensures Scan(s + t) == Scanned(Scan(s).lines + Scan(Scan(s).partial + t).lines, Scan(Scan(s).partial + t).partial)
  {
    var p := Scan(s).partial;
    if |t| == 0 {
      ScanPieces(s);
      ScanUnique(p, [], p);
      assert s + t == s && p + t == p;
    } else {
      var n := |t| - 1;
      ScanResume(s, t[..n]);
      assert (s + t)[..|s| + n] == s + t[..n];
      assert (p + t)[..|p| + n] == p + t[..n];
    }
  }

  /** The bytes of the chunks up to and including the first one that reports an error. */
  function Delivered(chunks: seq<Read>): string
  {
    if |chunks| == 0 then ""
    else if chunks[0].err then chunks[0].data
    else chunks[0].data + Delivered(chunks[1..])
  }

  lemma {:induction false} DeliveredSplit(chunks: seq<Read>, k: nat)
    requires k < |chunks| && forall j :: 0 <= j < k ==> !chunks[j].err
    ensures Delivered(chunks) == Delivered(chunks[..k]) + Delivered(chunks[k..])
    ensures !chunks[k].err ==> Delivered(chunks[..k + 1]) == Delivered(chunks[..k]) + chunks[k].data
    ensures chunks[k].err ==> Delivered(chunks) == Delivered(chunks[..k]) + chunks[k].data
  {
    if k > 0 {
      DeliveredSplit(chunks[1..], k - 1);
      assert chunks[1..][..k - 1] == chunks[..k][1..];
      assert chunks[1..][k - 1..] == chunks[k..];
      assert chunks[1..][..k] == chunks[..k + 1][1..];
    } else {
      assert chunks[..1] == [chunks[0]];
      assert Delivered(chunks[..1]) == chunks[0].data;
    }
  }

  /** The lines emitted and pending after the first k reads, and what read k adds. */
  lemma ReadStep(chunks: seq<Read>, k: nat, sc: Scanned)
    requires k < |chunks| && forall j :: 0 <= j < k ==> !chunks[j].err
    requires Scan(Delivered(chunks[..k])) == sc
    ensures var next := Scan(sc.partial + chunks[k].data);
            var after := Scanned(sc.lines + next.lines, next.partial);
            && (chunks[k].data == "" ==> after == sc)
            && (if chunks[k].err then Scan(Delivered(chunks)) == after
                else Scan(Delivered(chunks[..k + 1])) == after)
  {
    DeliveredSplit(chunks, k);
    ScanResume(Delivered(chunks[..k]), chunks[k].data);
    if chunks[k].data == "" {
      assert Delivered(chunks[..k]) + "" == Delivered(chunks[..k]);
    }
  }

  predicate HasEnded(chunks: seq<Read>)
  {
    exists k :: 0 <= k < |chunks| && chunks[k].err
  }

  /** forwardLines, after any number of reads. While the stream is live exactly its complete
      lines have been emitted; once a read reports an error, the lines of the whole stream.
      The cutting into reads, empty reads, and data arriving together with the error make
      no difference. */
  method ForwardLines(chunks: seq<Read>) returns (emitted: seq<string>)
    ensures emitted == if HasEnded(chunks) then Lines(Delivered(chunks)) else Scan(Delivered(chunks)).lines
  {
    emitted := [];
    var partial := "";
    var k := 0;
    while k < |chunks|
      invariant 0 <= k <= |chunks|
      invariant forall j :: 0 <= j < k ==> !chunks[j].err
      invariant Scan(Delivered(chunks[..k])) == Scanned(emitted, partial)
    {
      ReadStep(chunks, k, Scanned(emitted, partial));
      emitted, partial := AddChunk(emitted, partial, chunks[k].data);
      if chunks[k].err {
        if |partial| > 0 {
          emitted := emitted + [partial];
        }
        return;
      }
      k := k + 1;
    }
    assert chunks[..k] == chunks;
  }

  /** The bytes of one read, if there are any. */
  method AddChunk(emitted: seq<string>, partial: string, data: string) returns (emitted': seq<string>, partial': string)
    ensures data == "" ==> emitted' == emitted && partial' == partial
    ensures data != "" ==>
              var next := Scan(partial + data);
              emitted' == emitted + next.lines && partial' == next.partial
  {
    emitted', partial' := emitted, partial;
    if |data| > 0 {
      var lines;
      lines, partial' := SplitChunk(partial + data);
      emitted' := emitted + lines;
    }
  }

  lemma ScanAt(data: string, i: nat, start: nat, lines: seq<string>)
    requires start <= i < |data| && Scan(data[..i]) == Scanned(lines, data[start..i])
    ensures Scan(data[..i + 1])
         == if data[i] == '\n' then Scanned(lines + [data[start..i]], "") else Scanned(lines, data[start..i + 1])
  {
    assert data[..i + 1] == data[..i] + [data[i]];
    ScanSnoc(data[..i], data[i]);
    assert data[start..i + 1] == data[start..i] + [data[i]];
  }

  /** The inner loop of forwardLines over the pending bytes plus one read. */
  method SplitChunk(data: string) returns (lines: seq<string>, partial: string)
    ensures Scanned(lines, partial) == Scan(data)
  {
    lines := [];
    var start := 0;
    for i := 0 to |data|
      invariant 0 <= start <= i
      invariant Scan(data[..i]) == Scanned(lines, data[start..i])
    {
      ScanAt(data, i, start, lines);
      if data[i] == '\n' {
        lines := lines + [data[start..i]];
        start := i + 1;
        assert data[start..i + 1] == "";
      }
    }
    assert data[..|data|] == data && data[start..|data|] == data[start..];
    partial := "";
    if start < |data| {
      partial := data[start..];
    }
  }
}
