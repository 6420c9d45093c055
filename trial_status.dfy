/**
 * The trial-status side of the threshold script: each row of the blink
 * matrix is row `i` of the session, its CS type is read back from the
 * trial file `Trial<i+1>.csv` the recorder wrote, and the row is cut into
 * the pre-tone window and the conditioned-response window.
 */
module TrialStatus {
  import opened Text
  import opened FramedBlocks

  /** Samples before the tone (`pretoneN_`). */
  const PretoneN: nat := 500

  /** End of the conditioned-response window (`blinkResponseInterval_`). */
  const BlinkResponseInterval: nat := PretoneN + 50

  /** Why `get_status` raises: the file cannot be opened (IOError), the file
      has fewer than three lines or the third line no comma (IndexError), or
      the second field is not an integer (ValueError). */
  datatype StatusError = FileNotFound | TooFewLines | NoComma | NotAnInteger

  /** The label appended to `result_['session_type']`. */
  datatype SessionType = CsPlus | CsMinus

  /** `os.path.join(dirname, "Trial%s.csv" % (i+1))`. */
  function StatusFileName(i: nat, dir: string): string
  {
    PathJoin(dir, "Trial" + Decimal(i + 1) + ".csv")
  }

  /** `int(f.read().split("\n")[2].split(",")[1].strip())`. */
  function ParseStatus(text: string): (r: Result<int, StatusError>)
    ensures r == Err(TooFewLines) <==> Occurrences(text, '\n') < 2
    ensures r == Err(NoComma) <==> Occurrences(text, '\n') >= 2 && Occurrences(SplitOn(text, '\n')[2], ',') == 0
    ensures r.Ok? ==> Occurrences(text, '\n') >= 2 && Occurrences(SplitOn(text, '\n')[2], ',') >= 1
                      && ParseInt(Strip(SplitOn(SplitOn(text, '\n')[2], ',')[1])) == Some(r.value)
    ensures r == Err(NotAnInteger) <==> Occurrences(text, '\n') >= 2 && Occurrences(SplitOn(text, '\n')[2], ',') >= 1
                                        && ParseInt(Strip(SplitOn(SplitOn(text, '\n')[2], ',')[1])).None?
    ensures r != Err(FileNotFound)
  {
    var lines := SplitOn(text, '\n');
    if |lines| < 3 then Err(TooFewLines)
    else
      var fields := SplitOn(lines[2], ',');
      if |fields| < 2 then Err(NoComma)
      else match ParseInt(Strip(fields[1]))
        case None => Err(NotAnInteger)
        case Some(v) => Ok(v)
  }

  /** `get_status(i, dirname)`, with the files of the directory as a map from
      path to contents. */
  function GetStatus(i: nat, dir: string, files: map<string, string>): (r: Result<int, StatusError>)
    ensures r == Err(FileNotFound) <==> StatusFileName(i, dir) !in files
    ensures r != Err(FileNotFound) ==> r == ParseStatus(files[StatusFileName(i, dir)])
  {
    var name := StatusFileName(i, dir);
    if name !in files then Err(FileNotFound) else ParseStatus(files[name])
  }

  /** `"CS_PLUS" if status == 1 else "CS_MINUS"`. */
  function Label(status: int): (r: SessionType)
    ensures r == CsPlus ==> status == 1
    ensures status == 1 ==> r == CsPlus
  {
    if status == 1 then CsPlus else CsMinus
  }

  // Reading back what the recorder wrote.

  /** The file `get_status` opens for row `i` is the trial file the recorder
      writes for the trial key `str(i+1)`. */
  lemma StatusFileIsTrialFile(i: nat, dir: string)
    ensures StatusFileName(i, dir) == TrialFile(dir, Decimal(i + 1))
  {
  }

  /** The status of a trial file is the CS type of its header row, whatever
      the samples. */
  lemma {:induction false} ReadsBackCsType(key: string, csType: string, samples: seq<Pair>)
    requires IsToken(key) && IsToken(csType) && ',' !in key && ParseInt(csType).Some?
    ensures ParseStatus(TrialText(key, csType, samples)) == Ok(ParseInt(csType).value)
  {
    TrialTextHead(key, csType, samples);
    var lines := SplitOn(TrialText(key, csType, samples), '\n');
    assert lines[2] == key + "," + csType;
    CsTypeHasNoComma(csType);
    SplitOnFirstSeparator(key, ',', csType);
    SplitOnWithoutSeparator(csType, ',');
    assert SplitOn(lines[2], ',') == [key, csType];
    StripUnchanged(csType);
  }

  /** A whitespace-free token `int()` accepts holds no comma. */
  lemma CsTypeHasNoComma(csType: string)
    requires NoSpace(csType) && ParseInt(csType).Some?
    ensures ',' !in csType
  {
    IntTokenShape(csType);
  }

  /** `str(n)` for an integer is a token, so it can be a header field. */
  lemma IntToStringIsToken(c: int)
    ensures IsToken(IntToString(c))
  {
    var d := Decimal(if c < 0 then -c else c);
    assert forall k :: 0 <= k < |d| ==> !IsSpace(d[k]);
    if c < 0 {
      assert IntToString(c) == ['-'] + d;
    }
  }

  /** A trial file whose CS type is `str(c)` has status `c`. */
  lemma WrittenStatusReadBack(key: string, c: int, samples: seq<Pair>)
    requires IsToken(key) && ',' !in key
    ensures ParseStatus(TrialText(key, IntToString(c), samples)) == Ok(c)
  {
    IntToStringIsToken(c);
    IntRoundTrip(c);
    ReadsBackCsType(key, IntToString(c), samples);
  }

  /** Once `writeTrialData` has completed a block whose header names trial
      `i+1` with an integer CS type, `get_status(i, dir)` returns that CS
      type. */
  lemma WriterThenReader(st: Store, lines: seq<string>, j: nat, dir: string, i: nat)
    requires j <= |lines| && ReadHeader(lines, j).Header?
    requires ReadTrial(st, lines, j, dir).next.At?
    requires ReadHeader(lines, j).tokens.first == Decimal(i + 1)
    requires ParseInt(ReadHeader(lines, j).tokens.second).Some?
    ensures GetStatus(i, dir, ReadTrial(st, lines, j, dir).store.files)
            == Ok(ParseInt(ReadHeader(lines, j).tokens.second).value)
  {
    var h := ReadHeader(lines, j);
    AfterHeaderFound(st, lines, h, dir);
    var body := ReadBody(lines, h.begin + 1);
    TrialFileWritten(st, h.tokens, body, dir);
    NoCommaInDecimal(i + 1);
    ReadsBackCsType(h.tokens.first, h.tokens.second, Samples(st.trials, h.tokens.first) + body.pairs);
  }

  /** A completed block leaves its trial file holding the header row and
      every sample kept under the key. */
  lemma TrialFileWritten(st: Store, header: Pair, body: Body, dir: string)
    requires body.end.At?
    ensures var files := FinishTrial(st, header, body, dir).store.files;
            && TrialFile(dir, header.first) in files
            && files[TrialFile(dir, header.first)] == TrialText(header.first, header.second, Samples(st.trials, header.first) + body.pairs)
  {
    AppendSpec(st.trials, header.first, body.pairs);
  }

  lemma NoCommaInDecimal(n: nat)
    ensures ',' !in Decimal(n)
  {
    assert !IsDigit(',');
  }

  // The two windows of a row.

  function Min(a: nat, b: nat): nat { if a < b then a else b }

  /** `d[lo:hi]` with non-negative bounds: both bounds are clamped to the
      length, and an empty range gives an empty slice. */
  function Slice<T>(d: seq<T>, lo: nat, hi: nat): (r: seq<T>)
    ensures |r| == if lo < Min(hi, |d|) then Min(hi, |d|) - lo else 0
    ensures forall k :: 0 <= k < |r| ==> r[k] == d[lo + k]
  {
    if lo < Min(hi, |d|) then d[lo..Min(hi, |d|)] else []
  }

  /** `d[:pretoneN_]`: the first 500 samples, or all of a shorter row. */
  function PreTone<T>(d: seq<T>): (r: seq<T>)
    ensures |r| == Min(PretoneN, |d|) && forall k :: 0 <= k < |r| ==> r[k] == d[k]
  {
    Slice(d, 0, PretoneN)
  }

  /** `d[pretoneN_:blinkResponseInterval_]`: the samples from 500 up to 550,
      as many of them as the row has. */
  function Response<T>(d: seq<T>): (r: seq<T>)
    ensures |r| == if PretoneN < |d| then Min(BlinkResponseInterval, |d|) - PretoneN else 0
    ensures forall k :: 0 <= k < |r| ==> r[k] == d[PretoneN + k]
  {
    Slice(d, PretoneN, BlinkResponseInterval)
  }

  /** The pre-tone window is the first 500 samples and the response window the
      next 50: together they are the row's first 550 samples, each sample in
      exactly one of them. */
  lemma WindowsAdjacent<T>(d: seq<T>)
    ensures |PreTone(d)| == Min(PretoneN, |d|) && |Response(d)| <= BlinkResponseInterval - PretoneN
    ensures PreTone(d) + Response(d) == d[..Min(BlinkResponseInterval, |d|)]
  {
    var n := Min(BlinkResponseInterval, |d|);
    var w := PreTone(d) + Response(d);
    assert |w| == n;
    forall k | 0 <= k < n ensures w[k] == d[k] {
      if k >= |PreTone(d)| {
        assert w[k] == Response(d)[k - PretoneN];
      }
    }
  }

  // The loop over the rows of the matrix.

  /** What the loop body keeps of one row: its label and its two windows (the
      statistics computed from the windows are not modelled). */
  datatype RowSummary<T> = RowSummary(sessionType: SessionType, preTone: seq<T>, response: seq<T>)

  /** The loop body for row `k`, or the error `get_status` raises there. */
  function SummaryAt<T>(data: seq<seq<T>>, k: nat, dir: string, files: map<string, string>): Result<RowSummary<T>, StatusError>
    requires k < |data|
  {
    match GetStatus(k, dir, files)
    case Err(e) => Err(e)
    case Ok(s) => Ok(RowSummary(Label(s), PreTone(data[k]), Response(data[k])))
  }

  /** A row's label is CS_PLUS exactly when its status is 1. */
  lemma SummaryLabel<T>(data: seq<seq<T>>, k: nat, dir: string, files: map<string, string>)
    requires k < |data| && SummaryAt(data, k, dir, files).Ok?
    ensures SummaryAt(data, k, dir, files).value.sessionType == CsPlus <==> GetStatus(k, dir, files) == Ok(1)
  {
  }

  /** The summaries of the first rows, followed by the next row's. */
  lemma SummariesSnoc<T>(data: seq<seq<T>>, dir: string, files: map<string, string>, rows: seq<RowSummary<T>>, summary: RowSummary<T>)
    requires |rows| < |data| && SummaryAt(data, |rows|, dir, files) == Ok(summary)
    requires forall k :: 0 <= k < |rows| ==> SummaryAt(data, k, dir, files) == Ok(rows[k])
    ensures forall k :: 0 <= k <= |rows| ==> SummaryAt(data, k, dir, files) == Ok((rows + [summary])[k])
  {
    forall k | 0 <= k <= |rows| ensures SummaryAt(data, k, dir, files) == Ok((rows + [summary])[k]) {
      if k < |rows| {
        assert (rows + [summary])[k] == rows[k];
      }
    }
  }

  /** `for i, d in enumerate(data[:,:])`: one summary per row in row order,
      until the first row whose status cannot be read, where the script stops
      with that error. */
  method Process<T>(data: seq<seq<T>>, dir: string, files: map<string, string>)
    returns (rows: seq<RowSummary<T>>, failure: Option<StatusError>)
    ensures |rows| <= |data|
    ensures forall k :: 0 <= k < |rows| ==> SummaryAt(data, k, dir, files) == Ok(rows[k])
    ensures failure.None? ==> |rows| == |data|
    ensures failure.Some? ==> |rows| < |data| && GetStatus(|rows|, dir, files) == Err(failure.value)
  {
    rows := [];
    var i := 0;
    while i < |data|
      invariant i == |rows| <= |data|
      invariant forall k :: 0 <= k < i ==> SummaryAt(data, k, dir, files) == Ok(rows[k])
    {
      var status := GetStatus(i, dir, files);
      if status.Err? {
        return rows, Some(status.error);
      }
      var kind := CsMinus;
      if status.value == 1 {
        kind := CsPlus;
      }
      var row := data[i];
      var summary := RowSummary(kind, PreTone(row), Response(row));
      assert SummaryAt(data, i, dir, files) == Ok(summary);
      SummariesSnoc(data, dir, files, rows, summary);
      rows := rows + [summary];
      i := i + 1;
    }
    failure := None;
  }
}
