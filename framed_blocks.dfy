/** The framed block readers of eyeBlinkDataSave.py, `writeTrialData` and
    `writeProfilingData`.

    The serial port is a finite sequence of lines, each without its line
    terminator, read from a cursor. The port is opened with a timeout, and
    a `readline()` that times out returns the empty string: that is a line
    like any other here, which the skip loop passes over and the body loop
    fails to unpack (`BadLine`). `Incomplete` only marks that the modelled
    lines ran out, which the program itself never observes.
    Markers are compared by equality: the source compares the raw
    `readline()` output, terminator included, with `"["`, and tests the end
    marker with `is`, which only works by accident of string interning. */
module FramedBlocks {
  import opened Text

  const DataBegin: char := '['
  const DataEnd: char := ']'

  /** The line consists of the marker character alone. */
  predicate IsMarker(line: string, marker: char) { |line| == 1 && line[0] == marker }
  const CommentRow1: string := "# 3rd row values are trial index, cs type."
  const CommentRow2: string := "# Actual trial data starts from row 4"
  const ProfileFileName: string := "profilingData.csv"

  /** Why a block could not be read: the lines ran out, or the header line
      or a data line did not split into exactly two tokens (the tuple
      unpacking raises `ValueError` in the source). */
  datatype ReadError = Incomplete | BadHeader(at: nat) | BadLine(at: nat)

  /** The two whitespace-separated tokens of one line. */
  datatype Pair = Pair(first: string, second: string)

  /** A non-empty run of characters without whitespace, as `split()` yields. */
  predicate IsToken(t: string) { t != [] && NoSpace(t) }

  /** `a, b = line.split()`. */
  function SplitPair(line: string): (r: Option<Pair>)
    ensures r.None? <==> |Words(line)| != 2
    ensures r.Some? ==> IsToken(r.value.first) && IsToken(r.value.second)
    ensures r.Some? ==> r.value == Pair(Words(line)[0], Words(line)[1])
  {
    var ws := Words(line);
    if |ws| == 2 then Some(Pair(ws[0], ws[1])) else None
  }

  /** Two tokens written with one space between them split back into them. */
  lemma SplitPairOfTokens(a: string, b: string)
    requires IsToken(a) && IsToken(b)
    ensures SplitPair(a + " " + b) == Some(Pair(a, b))
  {
    assert JoinWith([a, b], " ") == a + " " + JoinWith([b], " ");
    WordsOfJoin([a, b]);
  }

  /** Index of the first line equal to `marker` at or after `i`: the loop
      `while readline() != marker: continue`. */
  function FindFrom(lines: seq<string>, i: nat, marker: char): (r: Option<nat>)
    requires i <= |lines|
    ensures r.Some? ==> i <= r.value < |lines| && IsMarker(lines[r.value], marker)
    ensures forall k :: i <= k < |lines| && (r.None? || k < r.value) ==> !IsMarker(lines[k], marker)
    decreases |lines| - i
  {
    if i == |lines| then None
    else if IsMarker(lines[i], marker) then Some(i)
    else FindFrom(lines, i + 1, marker)
  }

  /** What the body loop of a block collected, and where it stopped:
      `At(k)` when line `k` is the end marker. */
  datatype Body = Body(pairs: seq<Pair>, end: Progress)

  /** Where reading stopped: at a position, or with an error. */
  datatype Progress = At(pos: nat) | Failed(error: ReadError)

  /** What the body loop makes of one line: the end marker stops it, a line
      of two tokens is kept as a pair, any other line is an error. */
  datatype LineKind = EndLine | DataLine(pair: Pair) | Unsplit

  function Classify(line: string): (r: LineKind)
    ensures r == EndLine <==> IsMarker(line, DataEnd)
    ensures r == Unsplit <==> !IsMarker(line, DataEnd) && SplitPair(line).None?
  {
    if IsMarker(line, DataEnd) then EndLine
    else match SplitPair(line)
      case None => Unsplit
      case Some(p) => DataLine(p)
  }

  /** A data line is not the end marker and splits into its pair. */
  lemma DataLineSplits(line: string, p: Pair)
    requires Classify(line) == DataLine(p)
    ensures LineHolds(line, p)
  {
  }

  /** The kind of every line; `KindAt` states which. */
  function Kinds(lines: seq<string>): (r: seq<LineKind>)
    ensures |r| == |lines|
  {
    if lines == [] then [] else [Classify(lines[0])] + Kinds(lines[1..])
  }

  lemma {:induction false} KindAt(lines: seq<string>, k: nat)
    requires k < |lines|
    ensures Kinds(lines)[k] == Classify(lines[k])
  {
    if k > 0 {
      KindAt(lines[1..], k - 1);
    }
  }

  /** How the body loop ends when it reaches line `n` without having met
      the end marker before: the lines run out, line `n` is the end marker,
      or line `n` does not split into a pair. */
  function StopAt(kinds: seq<LineKind>, n: nat): Progress
    requires n <= |kinds|
  {
    if n == |kinds| then Failed(Incomplete)
    else if kinds[n] == EndLine then At(n)
    else Failed(BadLine(n))
  }

  /** The body loop over the kinds of the lines, from line `i` on. */
  function BodyOf(kinds: seq<LineKind>, i: nat): (r: Body)
    requires i <= |kinds|
    ensures i + |r.pairs| <= |kinds|
    ensures r.end == StopAt(kinds, i + |r.pairs|)
    ensures r.end.Failed? && r.end.error.BadLine? ==> kinds[i + |r.pairs|] == Unsplit
    decreases |kinds| - i
  {
    if i == |kinds| then Body([], Failed(Incomplete))
    else match kinds[i]
      case EndLine => Body([], At(i))
      case Unsplit => Body([], Failed(BadLine(i)))
      case DataLine(p) =>
        var rest := BodyOf(kinds, i + 1);
        Body([p] + rest.pairs, rest.end)
  }

  /** The loop after the begin marker, up to where it stops; which lines
      it turned into pairs is stated by `ReadBodyPairs`. */
  function ReadBody(lines: seq<string>, i: nat): Body
    requires i <= |lines|
  {
    BodyOf(Kinds(lines), i)
  }

  /** One turn of the body loop, at line `j`. */
  lemma ReadBodyAt(lines: seq<string>, j: nat)
    requires j < |lines|
    ensures IsMarker(lines[j], DataEnd) ==> ReadBody(lines, j) == Body([], At(j))
    ensures !IsMarker(lines[j], DataEnd) && SplitPair(lines[j]).None? ==> ReadBody(lines, j) == Body([], Failed(BadLine(j)))
    ensures !IsMarker(lines[j], DataEnd) && SplitPair(lines[j]).Some? ==>
              ReadBody(lines, j) == Body([SplitPair(lines[j]).value] + ReadBody(lines, j + 1).pairs, ReadBody(lines, j + 1).end)
  {
    KindAt(lines, j);
  }

  /** The lines from `i` on are, in order, data lines splitting into `ps`. */
  predicate PairsAt(lines: seq<string>, i: nat, ps: seq<Pair>)
  {
    i + |ps| <= |lines| && forall k :: 0 <= k < |ps| ==> LineHolds(lines[i + k], ps[k])
  }

  /** `line` is a data line that splits into `p`. */
  predicate LineHolds(line: string, p: Pair)
  {
    !IsMarker(line, DataEnd) && SplitPair(line) == Some(p)
  }

  /** The kinds from `i` on are, in order, the data lines of `ps`. */
  predicate KindsAt(kinds: seq<LineKind>, i: nat, ps: seq<Pair>)
  {
    i + |ps| <= |kinds| && forall k :: 0 <= k < |ps| ==> kinds[i + k] == DataLine(ps[k])
  }

  lemma {:induction false} BodyPairs(kinds: seq<LineKind>, i: nat)
    requires i <= |kinds|
    ensures KindsAt(kinds, i, BodyOf(kinds, i).pairs)
    decreases |kinds| - i
  {
    if i < |kinds| && kinds[i].DataLine? {
      var ps := BodyOf(kinds, i + 1).pairs;
      BodyPairs(kinds, i + 1);
      var qs := [kinds[i].pair] + ps;
      assert BodyOf(kinds, i).pairs == qs;
      forall k | 0 <= k < |qs| ensures kinds[i + k] == DataLine(qs[k]) {
        if k > 0 {
          assert qs[k] == ps[k - 1] && i + k == i + 1 + (k - 1);
        }
      }
    }
  }

  /** Every line up to the first end marker is split into a pair, in arrival
      order, and the end marker itself is not kept. */
  lemma ReadBodyPairs(lines: seq<string>, i: nat)
    requires i <= |lines|
    ensures PairsAt(lines, i, ReadBody(lines, i).pairs)
  {
    var kinds := Kinds(lines);
    var ps := ReadBody(lines, i).pairs;
    BodyPairs(kinds, i);
    forall k | 0 <= k < |ps| ensures LineHolds(lines[i + k], ps[k]) {
      KindAt(lines, i + k);
      DataLineSplits(lines[i + k], ps[k]);
    }
    assert i + |ps| <= |lines|;
    assert PairsAt(lines, i, ps);
  }

  /** Where the body loop stops: at the end of the lines (an error), at the
      first end marker, or at the first line that does not split into two
      tokens (an error at that line), whichever comes first. */
  lemma ReadBodyStops(lines: seq<string>, i: nat)
    requires i <= |lines|
    ensures var b := ReadBody(lines, i);
            var n := i + |b.pairs|;
            && n <= |lines|
            && (b.end == Failed(Incomplete) <==> n == |lines|)
            && (b.end == At(n) <==> n < |lines| && IsMarker(lines[n], DataEnd))
            && (b.end == Failed(BadLine(n)) <==> n < |lines| && !IsMarker(lines[n], DataEnd) && SplitPair(lines[n]).None?)
            && (b.end == Failed(Incomplete) || b.end == At(n) || b.end == Failed(BadLine(n)))
  {
    var n := i + |ReadBody(lines, i).pairs|;
    if n < |lines| {
      KindAt(lines, n);
    }
  }

  /** The dictionaries the readers fill, and the files they write (path to
      text). */
  datatype Store = Store(trials: map<string, seq<Pair>>, profile: map<string, string>, files: map<string, string>)

  /** The new store, and either the cursor just past the block or the error. */
  datatype Outcome = Outcome(store: Store, next: Progress)

  /** `trialsDict[key]` read through `defaultdict(list)`. */
  function Samples(trials: map<string, seq<Pair>>, key: string): seq<Pair>
  {
    if key in trials then trials[key] else []
  }

  /** `trialsDict[key].append(p)` for each `p` of `ps`, on a
      `defaultdict(list)`. */
  function Append(trials: map<string, seq<Pair>>, key: string, ps: seq<Pair>): map<string, seq<Pair>>
  {
    if |ps| == 0 then trials else trials[key := Samples(trials, key) + ps]
  }

  /** The samples are added at the end of the key's list, in order; the key
      appears with the first append; no other key changes. */
  lemma AppendSpec(trials: map<string, seq<Pair>>, key: string, ps: seq<Pair>)
    ensures Samples(Append(trials, key, ps), key) == Samples(trials, key) + ps
    ensures key in Append(trials, key, ps) <==> key in trials || ps != []
    ensures forall k :: k != key ==> Samples(Append(trials, key, ps), k) == Samples(trials, k)
                                     && (k in Append(trials, key, ps) <==> k in trials)
  {
  }

  /** Appending a list is appending its first sample, then the rest. */
  lemma AppendFirst(trials: map<string, seq<Pair>>, key: string, p: Pair, ps: seq<Pair>)
    ensures Append(trials, key, [p] + ps) == Append(trials[key := Samples(trials, key) + [p]], key, ps)
  {
    var once := trials[key := Samples(trials, key) + [p]];
    if ps != [] {
      assert Samples(trials, key) + ([p] + ps) == Samples(trials, key) + [p] + ps;
      assert once[key := Samples(once, key) + ps] == trials[key := Samples(trials, key) + ([p] + ps)];
    } else {
      assert [p] + ps == [p];
    }
  }

  /** `bin + "," + count` and `timeStamp + "," + blinkValue`. */
  function DataRow(p: Pair): string
  {
    p.first + "," + p.second
  }

  function DataRows(ps: seq<Pair>): (r: seq<string>)
    ensures |r| == |ps| && forall k :: 0 <= k < |ps| ==> r[k] == DataRow(ps[k])
  {
    if ps == [] then [] else [DataRow(ps[0])] + DataRows(ps[1..])
  }

  /** `os.path.join(saveDirec, "Trial" + runningTrial + ".csv")`. */
  function TrialFile(dir: string, key: string): string
  {
    PathJoin(dir, "Trial" + key + ".csv")
  }

  /** What `writeTrialData` writes, taking each `writeline(x)` as writing `x`
      and a newline and the final join as joining the `ts,value` rows (the
      source calls the nonexistent `f.writeline` and joins the tuples
      themselves). */
  function TrialText(key: string, csType: string, samples: seq<Pair>): string
  {
    var header := key + "," + csType;
    CommentRow1 + "\n" + CommentRow2 + "\n" + header + "\n" + JoinWith(DataRows(samples), "\n")
  }

  /** `writeTrialData`: the header line gives the trial key and the CS type;
      lines up to the first begin marker are skipped; every sample is
      appended to `trialsDict[key]`; at the end marker the whole list kept
      under the key is written to `Trial<key>.csv`. Samples appended before
      an error stay in the dictionary. */
  function ReadTrial(st: Store, lines: seq<string>, i: nat, dir: string): (r: Outcome)
    requires i <= |lines|
  {
    AfterHeader(st, lines, ReadHeader(lines, i), dir)
  }

  /** `writeTrialData` once the header is read: an error ends it, otherwise
      the body after the begin marker is read. */
  function AfterHeader(st: Store, lines: seq<string>, h: Header, dir: string): Outcome
    requires h.Header? ==> h.begin < |lines|
  {
    match h
    case NoHeader(e) => Outcome(st, Failed(e))
    case Header(tokens, begin) => FinishTrial(st, tokens, ReadBody(lines, begin + 1), dir)
  }

  /** The header tokens of a trial block and the index of the first begin
      marker after the header line, or why there are none. */
  datatype Header = Header(tokens: Pair, begin: nat) | NoHeader(error: ReadError)

  /** `AfterHeader` once a header was found. */
  lemma AfterHeaderFound(st: Store, lines: seq<string>, h: Header, dir: string)
    requires h.Header? && h.begin < |lines|
    ensures AfterHeader(st, lines, h, dir) == FinishTrial(st, h.tokens, ReadBody(lines, h.begin + 1), dir)
  {
  }

  /** The start of `writeTrialData`, up to the begin marker. */
  function ReadHeader(lines: seq<string>, i: nat): (r: Header)
    requires i <= |lines|
    ensures r.Header? ==> i < r.begin < |lines| && IsMarker(lines[r.begin], DataBegin)
  {
    if i == |lines| then NoHeader(Incomplete)
    else match SplitPair(lines[i])
      case None => NoHeader(BadHeader(i))
      case Some(header) =>
        match FindFrom(lines, i + 1, DataBegin)
        case None => NoHeader(Incomplete)
        case Some(b) => Header(header, b)
  }

  /** The part of `writeTrialData` after the begin marker, for the header
      tokens `header` and the body read. */
  function FinishTrial(st: Store, header: Pair, body: Body, dir: string): Outcome
  {
    var trials := Append(st.trials, header.first, body.pairs);
    match body.end
    case Failed(e) => Outcome(st.(trials := trials), Failed(e))
    case At(k) =>
      var all := Samples(trials, header.first);
      Outcome(Store(trials[header.first := all], st.profile,
                    st.files[TrialFile(dir, header.first) := TrialText(header.first, header.second, all)]),
              At(k + 1))
  }

  /** `profilingDict[bin] = counts` for each pair in turn. */
  function Assign(profile: map<string, string>, ps: seq<Pair>): map<string, string>
    decreases |ps|
  {
    if ps == [] then profile
    else
      var last := ps[|ps| - 1];
      Assign(profile, ps[..|ps| - 1])[last.first := last.second]
  }

  /** The bins present afterwards are the earlier ones and those assigned. */
  lemma {:induction false} AssignKeys(profile: map<string, string>, ps: seq<Pair>, b: string)
    ensures b in Assign(profile, ps) <==> b in profile || exists k :: 0 <= k < |ps| && ps[k].first == b
    decreases |ps|
  {
    if ps != [] {
      var init := ps[..|ps| - 1];
      AssignKeys(profile, init, b);
      assert forall k :: 0 <= k < |init| ==> init[k] == ps[k];
    }
  }

  /** Each bin keeps the count of its last occurrence. */
  lemma {:induction false} LastOccurrenceWins(profile: map<string, string>, ps: seq<Pair>, k: nat)
    requires k < |ps|
    requires forall j :: k < j < |ps| ==> ps[j].first != ps[k].first
    ensures ps[k].first in Assign(profile, ps) && Assign(profile, ps)[ps[k].first] == ps[k].second
    decreases |ps|
  {
    if k < |ps| - 1 {
      var init := ps[..|ps| - 1];
      assert forall j :: k < j < |init| ==> init[j] == ps[j];
      LastOccurrenceWins(profile, init, k);
    }
  }

  /** A bin that is not assigned keeps its count. */
  lemma {:induction false} UnassignedBinKept(profile: map<string, string>, ps: seq<Pair>, b: string)
    requires forall j :: 0 <= j < |ps| ==> ps[j].first != b
    ensures b in Assign(profile, ps) <==> b in profile
    ensures b in profile ==> Assign(profile, ps)[b] == profile[b]
    decreases |ps|
  {
    if ps != [] {
      var init := ps[..|ps| - 1];
      assert forall j :: 0 <= j < |init| ==> init[j] == ps[j];
      UnassignedBinKept(profile, init, b);
    }
  }

  /** Assigning a list of pairs is assigning its first pair, then the rest. */
  lemma {:induction false} AssignFirst(profile: map<string, string>, p: Pair, ps: seq<Pair>)
    ensures Assign(profile, [p] + ps) == Assign(profile[p.first := p.second], ps)
    decreases |ps|
  {
    if ps != [] {
      var init := ps[..|ps| - 1];
      AssignFirst(profile, p, init);
      assert ([p] + ps)[..|ps|] == [p] + init;
    }
  }

  /** An order of the dictionary's keys, each once: what iterating over
      `profilingDict.items()` visits. */
  predicate IsKeyOrder(order: seq<string>, m: map<string, string>)
  {
    (forall j, k :: 0 <= j < k < |order| ==> order[j] != order[k])
    && (forall b :: b in order ==> b in m)
    && (forall b :: b in m ==> b in order)
  }

  function ProfileRows(order: seq<string>, m: map<string, string>): (r: seq<string>)
    requires forall b :: b in order ==> b in m
    ensures |r| == |order| && forall k :: 0 <= k < |order| ==> r[k] == DataRow(Pair(order[k], m[order[k]]))
  {
    if order == [] then [] else [DataRow(Pair(order[0], m[order[0]]))] + ProfileRows(order[1..], m)
  }

  /** The text of `profilingData.csv` for a key order of the dictionary. */
  function ProfileText(order: seq<string>, m: map<string, string>): string
    requires forall b :: b in order ==> b in m
  {
    JoinWith(ProfileRows(order, m), "\n")
  }

  /** `writeProfilingData` up to the file write: lines up to the first begin
      marker are skipped and every pair assigns its bin. The file write is
      stated by `Recorder.WriteProfilingData`, since it depends on the order
      of the dictionary. */
  function ReadProfile(st: Store, lines: seq<string>, i: nat): (r: Outcome)
    requires i <= |lines|
  {
    match FindFrom(lines, i, DataBegin)
    case None => Outcome(st, Failed(Incomplete))
    case Some(b) => FinishProfile(st, ReadBody(lines, b + 1))
  }

  /** `ReadProfile` once the begin marker was found at line `b`. */
  lemma ReadProfileFound(st: Store, lines: seq<string>, i: nat, b: nat)
    requires i <= b < |lines| && FindFrom(lines, i, DataBegin) == Some(b)
    ensures ReadProfile(st, lines, i) == FinishProfile(st, ReadBody(lines, b + 1))
  {
  }

  /** `ReadProfile` when no begin marker follows line `i`. */
  lemma ReadProfileMissing(st: Store, lines: seq<string>, i: nat)
    requires i <= |lines| && FindFrom(lines, i, DataBegin).None?
    ensures ReadProfile(st, lines, i) == Outcome(st, Failed(Incomplete))
  {
  }

  /** The part of `writeProfilingData` after the begin marker. */
  function FinishProfile(st: Store, body: Body): Outcome
  {
    Outcome(st.(profile := Assign(st.profile, body.pairs)), if body.end.At? then At(body.end.pos + 1) else body.end)
  }

  // Lines before the begin marker are ignored, and the body loop reads
  // only the lines from where it starts.

  /** A read error found `d` lines further down. */
  function ShiftError(e: ReadError, d: nat): ReadError
  {
    match e
    case Incomplete => Incomplete
    case BadHeader(at) => BadHeader(at + d)
    case BadLine(at) => BadLine(at + d)
  }

  /** A stopping point found `d` lines further down. */
  function Shift(p: Progress, d: nat): Progress
  {
    match p
    case At(pos) => At(pos + d)
    case Failed(e) => Failed(ShiftError(e, d))
  }

  /** The kinds of joined lines are the joined kinds. */
  lemma {:induction false} KindsConcat(a: seq<string>, b: seq<string>)
    ensures Kinds(a + b) == Kinds(a) + Kinds(b)
  {
    if a != [] {
      assert (a + b)[1..] == a[1..] + b;
      KindsConcat(a[1..], b);
    } else {
      assert a + b == b;
    }
  }

  /** Kinds in front of the body only move where it stops. */
  lemma {:induction false} BodyShift(front: seq<LineKind>, kinds: seq<LineKind>, i: nat)
    requires i <= |kinds|
    ensures BodyOf(front + kinds, |front| + i) == Body(BodyOf(kinds, i).pairs, Shift(BodyOf(kinds, i).end, |front|))
    decreases |kinds| - i
  {
    if i < |kinds| {
      assert (front + kinds)[|front| + i] == kinds[i];
      if kinds[i].DataLine? {
        BodyShift(front, kinds, i + 1);
        assert |front| + i + 1 == |front| + (i + 1);
      }
    }
  }

  /** Whatever lines come before, the body loop collects the same pairs and
      stops at the same line, counted from further down. */
  lemma ReadBodyShift(pre: seq<string>, rest: seq<string>, i: nat)
    requires i <= |rest|
    ensures ReadBody(pre + rest, |pre| + i).pairs == ReadBody(rest, i).pairs
    ensures ReadBody(pre + rest, |pre| + i).end == Shift(ReadBody(rest, i).end, |pre|)
  {
    KindsConcat(pre, rest);
    BodyShift(Kinds(pre), Kinds(rest), i);
  }

  /** A search passes over lines that are not the marker. */
  lemma {:induction false} FindFromSkips(lines: seq<string>, i: nat, j: nat, marker: char)
    requires i <= j <= |lines|
    requires forall k :: i <= k < j ==> !IsMarker(lines[k], marker)
    ensures FindFrom(lines, i, marker) == FindFrom(lines, j, marker)
    decreases j - i
  {
    if i < j {
      FindFromSkips(lines, i + 1, j, marker);
    }
  }

  /** `writeProfilingData` skips every line before the first begin marker:
      what it records is what the body after that marker gives. */
  lemma ProfileSkipsPreamble(st: Store, lines: seq<string>, i: nat, j: nat)
    requires i <= j < |lines| && IsMarker(lines[j], DataBegin)
    requires forall k :: i <= k < j ==> !IsMarker(lines[k], DataBegin)
    ensures ReadProfile(st, lines, i) == FinishProfile(st, ReadBody(lines, j + 1))
  {
    FindFromSkips(lines, i, j, DataBegin);
    ReadProfileFound(st, lines, i, j);
  }

  /** `writeTrialData` skips every line between the header line and the
      first begin marker after it. */
  lemma TrialSkipsPreamble(st: Store, lines: seq<string>, i: nat, j: nat, dir: string)
    requires i < j < |lines| && SplitPair(lines[i]).Some? && IsMarker(lines[j], DataBegin)
    requires forall k :: i < k < j ==> !IsMarker(lines[k], DataBegin)
    ensures ReadTrial(st, lines, i, dir) == FinishTrial(st, SplitPair(lines[i]).value, ReadBody(lines, j + 1), dir)
  {
    FindFromSkips(lines, i + 1, j, DataBegin);
    ReadTrialFound(st, lines, i, j, dir);
  }

  /** `ReadTrial` at a header line followed, at line `b`, by a begin marker. */
  lemma ReadTrialFound(st: Store, lines: seq<string>, i: nat, b: nat, dir: string)
    requires i < |lines| && SplitPair(lines[i]).Some? && FindFrom(lines, i + 1, DataBegin) == Some(b)
    ensures ReadTrial(st, lines, i, dir) == FinishTrial(st, SplitPair(lines[i]).value, ReadBody(lines, b + 1), dir)
  {
    assert ReadHeader(lines, i) == Header(SplitPair(lines[i]).value, b);
    AfterHeaderFound(st, lines, ReadHeader(lines, i), dir);
  }

  // Reading stops at the first end marker.

  /** A body that ended at an end marker reads the same whatever follows. */
  lemma {:induction false} BodyIgnoresRest(kinds: seq<LineKind>, more: seq<LineKind>, i: nat)
    requires i <= |kinds| && BodyOf(kinds, i).end.At?
    ensures BodyOf(kinds + more, i) == BodyOf(kinds, i)
    decreases |kinds| - i
  {
    assert (kinds + more)[i] == kinds[i];
    if kinds[i].DataLine? {
      BodyIgnoresRest(kinds, more, i + 1);
    }
  }

  lemma ReadBodyIgnoresRest(lines: seq<string>, more: seq<string>, i: nat)
    requires i <= |lines| && ReadBody(lines, i).end.At?
    ensures ReadBody(lines + more, i) == ReadBody(lines, i)
  {
    KindsConcat(lines, more);
    BodyIgnoresRest(Kinds(lines), Kinds(more), i);
  }

  /** A search that found the marker finds it whatever follows. */
  lemma {:induction false} FindFromIgnoresRest(lines: seq<string>, more: seq<string>, i: nat, marker: char)
    requires i <= |lines| && FindFrom(lines, i, marker).Some?
    ensures FindFrom(lines + more, i, marker) == FindFrom(lines, i, marker)
    decreases |lines| - i
  {
    assert (lines + more)[i] == lines[i];
    if !IsMarker(lines[i], marker) {
      FindFromIgnoresRest(lines, more, i + 1, marker);
    }
  }

  /** `writeProfilingData` reads nothing past the first end marker. */
  lemma ProfileStopsAtEnd(st: Store, lines: seq<string>, more: seq<string>, i: nat)
    requires i <= |lines| && ReadProfile(st, lines, i).next.At?
    ensures ReadProfile(st, lines + more, i) == ReadProfile(st, lines, i)
  {
    var found := FindFrom(lines, i, DataBegin);
    if found.None? {
      ReadProfileMissing(st, lines, i);
    } else {
      var b := found.value;
      ReadProfileFound(st, lines, i, b);
      FindFromIgnoresRest(lines, more, i, DataBegin);
      ReadProfileFound(st, lines + more, i, b);
      ReadBodyIgnoresRest(lines, more, b + 1);
    }
  }

  /** `writeTrialData` reads nothing past the first end marker. */
  lemma TrialStopsAtEnd(st: Store, lines: seq<string>, more: seq<string>, i: nat, dir: string)
    requires i <= |lines| && ReadTrial(st, lines, i, dir).next.At?
    ensures ReadTrial(st, lines + more, i, dir) == ReadTrial(st, lines, i, dir)
  {
    var h := ReadHeader(lines, i);
    HeaderIgnoresRest(lines, more, i);
    ReadBodyIgnoresRest(lines, more, h.begin + 1);
    AfterHeaderFound(st, lines, h, dir);
    AfterHeaderFound(st, lines + more, h, dir);
  }

  /** A header read in full reads the same whatever follows. */
  lemma HeaderIgnoresRest(lines: seq<string>, more: seq<string>, i: nat)
    requires i <= |lines| && ReadHeader(lines, i).Header?
    ensures ReadHeader(lines + more, i) == ReadHeader(lines, i)
  {
    assert (lines + more)[i] == lines[i];
    FindFromIgnoresRest(lines, more, i + 1, DataBegin);
  }

  // What the trial reader records and writes.

  /** A header line that does not split into exactly two tokens is an error
      at that line, and only such a line is. */
  lemma BadHeaderIff(lines: seq<string>, i: nat)
    requires i <= |lines|
    ensures ReadHeader(lines, i) == NoHeader(BadHeader(i)) <==> i < |lines| && |Words(lines[i])| != 2
  {
  }

  /** After a complete block, the samples kept under the trial key are the
      earlier ones followed by the block's pairs in arrival order, one per
      data line, and the trial file holds the header row and all of them. */
  lemma TrialRecordsSamples(st: Store, lines: seq<string>, i: nat, dir: string)
    requires i <= |lines| && ReadHeader(lines, i).Header?
    ensures var h := ReadHeader(lines, i);
            var key := h.tokens.first;
            var body := ReadBody(lines, h.begin + 1);
            var o := ReadTrial(st, lines, i, dir);
            && PairsAt(lines, h.begin + 1, body.pairs)
            && Samples(o.store.trials, key) == Samples(st.trials, key) + body.pairs
            && (forall k :: k != key ==> Samples(o.store.trials, k) == Samples(st.trials, k))
            && o.store.profile == st.profile
            && (o.next.At? ==> o.store.files == st.files[TrialFile(dir, key) := TrialText(key, h.tokens.second, Samples(st.trials, key) + body.pairs)])
            && (o.next.Failed? ==> o.store.files == st.files)
  {
    var h := ReadHeader(lines, i);
    AfterHeaderFound(st, lines, h, dir);
    ReadBodyPairs(lines, h.begin + 1);
    FinishTrialRecords(st, h.tokens, ReadBody(lines, h.begin + 1), dir);
  }

  /** What `writeTrialData` records once the body is read. */
  lemma FinishTrialRecords(st: Store, header: Pair, body: Body, dir: string)
    ensures var key := header.first;
            var o := FinishTrial(st, header, body, dir);
            && Samples(o.store.trials, key) == Samples(st.trials, key) + body.pairs
            && (forall k :: k != key ==> Samples(o.store.trials, k) == Samples(st.trials, k))
            && o.store.profile == st.profile
            && (o.next.At? ==> o.store.files == st.files[TrialFile(dir, key) := TrialText(key, header.second, Samples(st.trials, key) + body.pairs)])
            && (o.next.Failed? ==> o.store.files == st.files)
  {
    AppendSpec(st.trials, header.first, body.pairs);
  }

  /** The lines of a trial file: the two comment rows, the header row, then
      one `timestamp,value` row per sample (a single empty line when there
      is no sample). */
  lemma TrialTextLines(key: string, csType: string, samples: seq<Pair>)
    requires IsToken(key) && IsToken(csType)
    requires forall k :: 0 <= k < |samples| ==> IsToken(samples[k].first) && IsToken(samples[k].second)
    ensures samples == [] ==> SplitOn(TrialText(key, csType, samples), '\n') == [CommentRow1, CommentRow2, key + "," + csType, ""]
    ensures samples != [] ==> SplitOn(TrialText(key, csType, samples), '\n') == [CommentRow1, CommentRow2, key + "," + csType] + DataRows(samples)
  {
    TrialTextHead(key, csType, samples);
    SampleLines(samples);
  }

  /** The first three lines of a trial file. */
  lemma TrialTextHead(key: string, csType: string, samples: seq<Pair>)
    requires IsToken(key) && IsToken(csType)
    ensures SplitOn(TrialText(key, csType, samples), '\n')
            == [CommentRow1, CommentRow2, key + "," + csType] + SplitOn(JoinWith(DataRows(samples), "\n"), '\n')
  {
    CommentRowsUnbroken();
    RowUnbroken(Pair(key, csType));
    SplitThreeLines(CommentRow1, CommentRow2, key + "," + csType, JoinWith(DataRows(samples), "\n"));
  }

  /** The sample rows of a trial file, one line each. */
  lemma SampleLines(samples: seq<Pair>)
    requires forall k :: 0 <= k < |samples| ==> IsToken(samples[k].first) && IsToken(samples[k].second)
    ensures SplitOn(JoinWith(DataRows(samples), "\n"), '\n') == if samples == [] then [""] else DataRows(samples)
  {
    if samples == [] {
      assert JoinWith(DataRows(samples), "\n") == [];
    } else {
      DataRowsLines(samples);
      SplitOfJoin(DataRows(samples), '\n');
    }
  }

  /** Three lines without a break, then the rest, split into those lines and
      the lines of the rest. */
  lemma SplitThreeLines(a: string, b: string, c: string, rest: string)
    requires '\n' !in a && '\n' !in b && '\n' !in c
    ensures SplitOn(a + "\n" + b + "\n" + c + "\n" + rest, '\n') == [a, b, c] + SplitOn(rest, '\n')
  {
    var third := c + ['\n'] + rest;
    var second := b + ['\n'] + third;
    assert a + "\n" + b + "\n" + c + "\n" + rest == a + ['\n'] + second;
    SplitOnFirstSeparator(a, '\n', second);
    SplitOnFirstSeparator(b, '\n', third);
    SplitOnFirstSeparator(c, '\n', rest);
  }

  lemma CommentRowsUnbroken()
    ensures '\n' !in CommentRow1 && '\n' !in CommentRow2
  {
  }

  /** A row of two tokens holds no line break, line breaks being whitespace. */
  lemma RowUnbroken(p: Pair)
    requires IsToken(p.first) && IsToken(p.second)
    ensures '\n' !in DataRow(p)
  {
    assert IsSpace('\n');
  }

  /** Rows of tokens hold no line break, and there is one per sample. */
  lemma DataRowsLines(samples: seq<Pair>)
    requires forall k :: 0 <= k < |samples| ==> IsToken(samples[k].first) && IsToken(samples[k].second)
    ensures forall k :: 0 <= k < |samples| ==> '\n' !in DataRows(samples)[k]
  {
    forall k | 0 <= k < |samples| ensures '\n' !in DataRows(samples)[k] {
      RowUnbroken(samples[k]);
    }
  }

  // What the profiling reader writes.

  /** A key order lists every key of the dictionary exactly once, so the
      profiling file has one row per distinct bin. */
  lemma {:induction false} KeyOrderLength(order: seq<string>, m: map<string, string>)
    requires IsKeyOrder(order, m)
    ensures |order| == |m|
    decreases |order|
  {
    if order == [] {
      assert m.Keys == {};
    } else {
      KeyOrderTail(order, m);
      KeyOrderLength(order[1..], m - {order[0]});
      RemoveOneKey(m, order[0]);
    }
  }

  /** The keys after the first are a key order of the rest of the dictionary. */
  lemma KeyOrderTail(order: seq<string>, m: map<string, string>)
    requires IsKeyOrder(order, m) && order != []
    ensures IsKeyOrder(order[1..], m - {order[0]})
  {
    var b, smaller := order[0], m - {order[0]};
    forall x | x in order[1..] ensures x in smaller {
      var j :| 1 <= j < |order| && order[j] == x;
    }
    forall x | x in smaller ensures x in order[1..] {
      assert x in order && x != b;
    }
  }

  lemma RemoveOneKey(m: map<string, string>, b: string)
    requires b in m
    ensures |m - {b}| == |m| - 1
  {
    assert m.Keys == (m - {b}).Keys + {b};
  }

  /** `while readline() != marker: continue`, from line `i`: the index of
      the marker line, if the lines hold one. */
  method SkipTo(lines: seq<string>, i: nat, marker: char) returns (r: Option<nat>)
    requires i <= |lines|
    ensures r == FindFrom(lines, i, marker)
  {
    var j := i;
    while j < |lines| && !IsMarker(lines[j], marker)
      invariant i <= j <= |lines|
      invariant FindFrom(lines, j, marker) == FindFrom(lines, i, marker)
      decreases |lines| - j
    {
      j := j + 1;
    }
    r := if j == |lines| then None else Some(j);
  }

  /** `runningTrial, csType = readline().split()`, then the skip to the
      begin marker. */
  method TrialHeader(lines: seq<string>, i: nat) returns (r: Header)
    requires i <= |lines|
    ensures r == ReadHeader(lines, i)
  {
    if i == |lines| {
      return NoHeader(Incomplete);
    }
    var header := SplitPair(lines[i]);
    if header.None? {
      return NoHeader(BadHeader(i));
    }
    var begin := SkipTo(lines, i + 1, DataBegin);
    if begin.None? {
      return NoHeader(Incomplete);
    }
    r := Header(header.value, begin.value);
  }

  /** Iterates over the keys of `m` in some order: Python 2 leaves the order
      of `dict.items()` unspecified. */
  method KeyOrder(m: map<string, string>) returns (order: seq<string>)
    ensures IsKeyOrder(order, m)
  {
    order := [];
    var rest := m.Keys;
    while rest != {}
      invariant forall b :: b in m <==> b in order || b in rest
      invariant forall b :: b in order ==> b !in rest
      invariant forall j, k :: 0 <= j < k < |order| ==> order[j] != order[k]
      decreases |rest|
    {
      var b :| b in rest;
      order := order + [b];
      rest := rest - {b};
    }
  }

  /** The module-level dictionaries `trialsDict` and `profilingDict` and the
      files written into the session directory. */
  class Recorder {
    var trials: map<string, seq<Pair>>
    var profile: map<string, string>
    var files: map<string, string>

    constructor ()
      ensures Snap() == Store(map[], map[], map[])
    {
      trials, profile, files := map[], map[], map[];
    }

    function Snap(): Store
      reads this
    {
      Store(trials, profile, files)
    }

    /** The body loop of `writeTrialData` from line `start`, just past the
        begin marker: each sample is appended to `trialsDict[key]` as it
        arrives, so the samples before an error stay. */
    method CollectSamples(lines: seq<string>, start: nat, key: string) returns (end: Progress)
      requires start <= |lines|
      modifies this`trials
      ensures trials == Append(old(trials), key, ReadBody(lines, start).pairs)
      ensures end == ReadBody(lines, start).end
    {
      ghost var body := ReadBody(lines, start);
      var j := start;
      while true
        invariant start <= j <= |lines|
        invariant body.end == ReadBody(lines, j).end
        invariant Append(trials, key, ReadBody(lines, j).pairs) == Append(old(trials), key, body.pairs)
        decreases |lines| - j
      {
        if j == |lines| {
          return Failed(Incomplete);
        }
        ReadBodyAt(lines, j);
        if IsMarker(lines[j], DataEnd) {
          break;
        }
        var p := SplitPair(lines[j]);
        if p.None? {
          return Failed(BadLine(j));
        }
        AppendFirst(trials, key, p.value, ReadBody(lines, j + 1).pairs);
        trials := trials[key := Samples(trials, key) + [p.value]];
        j := j + 1;
      }
      end := At(j);
    }

    /** The end of `writeTrialData`: `trialsDict[key]` is read (which creates
        the key) and the trial file is written from it. */
    method SaveTrial(dir: string, key: string, csType: string)
      modifies this`trials, this`files
      ensures trials == old(trials)[key := Samples(old(trials), key)]
      ensures files == old(files)[TrialFile(dir, key) := TrialText(key, csType, Samples(old(trials), key))]
    {
      trials := trials[key := Samples(trials, key)];
      files := files[TrialFile(dir, key) := TrialText(key, csType, trials[key])];
    }

    /** `writeTrialData` once the header is read. */
    method FinishTrialData(ghost st: Store, lines: seq<string>, header: Header, dir: string) returns (next: Progress)
      requires (header.Header? ==> header.begin < |lines|) && Snap() == st
      modifies this
      ensures Snap() == AfterHeader(st, lines, header, dir).store
      ensures next == AfterHeader(st, lines, header, dir).next
    {
      if header.NoHeader? {
        assert AfterHeader(st, lines, header, dir) == Outcome(st, Failed(header.error));
        return Failed(header.error);
      }
      AfterHeaderFound(st, lines, header, dir);
      next := TrialBody(st, lines, header.begin + 1, header.tokens, dir);
    }

    /** `writeTrialData` after the begin marker, for the header tokens
        `header` and the body from line `start`. */
    method TrialBody(ghost st: Store, lines: seq<string>, start: nat, header: Pair, dir: string) returns (next: Progress)
      requires start <= |lines| && Snap() == st
      modifies this
      ensures Snap() == FinishTrial(st, header, ReadBody(lines, start), dir).store
      ensures next == FinishTrial(st, header, ReadBody(lines, start), dir).next
    {
      var end := CollectSamples(lines, start, header.first);
      if end.Failed? {
        return Failed(end.error);
      }
      SaveTrial(dir, header.first, header.second);
      next := At(end.pos + 1);
    }

    /** `writeTrialData`, reading from line `i`. */
    method WriteTrialData(lines: seq<string>, i: nat, dir: string) returns (next: Progress)
      requires i <= |lines|
      modifies this
      ensures Snap() == ReadTrial(old(Snap()), lines, i, dir).store
      ensures next == ReadTrial(old(Snap()), lines, i, dir).next
    {
      ghost var st := Snap();
      var header := TrialHeader(lines, i);
      next := FinishTrialData(st, lines, header, dir);
    }

    /** The body loop of `writeProfilingData` from line `start`, just past
        the begin marker: each pair assigns its bin as it arrives. */
    method AssignBins(lines: seq<string>, start: nat) returns (end: Progress)
      requires start <= |lines|
      modifies this`profile
      ensures profile == Assign(old(profile), ReadBody(lines, start).pairs)
      ensures end == ReadBody(lines, start).end
    {
      ghost var body := ReadBody(lines, start);
      var j := start;
      while true
        invariant start <= j <= |lines|
        invariant body.end == ReadBody(lines, j).end
        invariant Assign(profile, ReadBody(lines, j).pairs) == Assign(old(profile), body.pairs)
        decreases |lines| - j
      {
        if j == |lines| {
          return Failed(Incomplete);
        }
        ReadBodyAt(lines, j);
        if IsMarker(lines[j], DataEnd) {
          break;
        }
        var p := SplitPair(lines[j]);
        if p.None? {
          return Failed(BadLine(j));
        }
        AssignFirst(profile, p.value, ReadBody(lines, j + 1).pairs);
        profile := profile[p.value.first := p.value.second];
        j := j + 1;
      }
      end := At(j);
    }

    /** `writeProfilingData` after the begin marker, for the body from line
        `start`. */
    method ProfileBody(ghost st: Store, lines: seq<string>, start: nat, dir: string) returns (next: Progress, order: seq<string>)
      requires start <= |lines| && Snap() == st
      modifies this
      ensures trials == st.trials
      ensures profile == FinishProfile(st, ReadBody(lines, start)).store.profile
      ensures next == FinishProfile(st, ReadBody(lines, start)).next
      ensures next.Failed? ==> files == st.files
      ensures next.At? ==> IsKeyOrder(order, profile)
                           && files == st.files[PathJoin(dir, ProfileFileName) := ProfileText(order, profile)]
    {
      order := [];
      var end := AssignBins(lines, start);
      if end.Failed? {
        return end, order;
      }
      order := KeyOrder(profile);
      files := files[PathJoin(dir, ProfileFileName) := ProfileText(order, profile)];
      next := At(end.pos + 1);
    }

    /** `writeProfilingData`, reading from line `i`; `order` is the order in
        which the dictionary was listed when the file was written. */
    method WriteProfilingData(lines: seq<string>, i: nat, dir: string) returns (next: Progress, order: seq<string>)
      requires i <= |lines|
      modifies this
      ensures trials == old(trials)
      ensures profile == ReadProfile(old(Snap()), lines, i).store.profile
      ensures next == ReadProfile(old(Snap()), lines, i).next
      ensures next.Failed? ==> files == old(files)
      ensures next.At? ==> IsKeyOrder(order, profile)
                           && files == old(files)[PathJoin(dir, ProfileFileName) := ProfileText(order, profile)]
    {
      ghost var st := Snap();
      var begin := SkipTo(lines, i, DataBegin);
      if begin.None? {
        ReadProfileMissing(st, lines, i);
        return Failed(Incomplete), [];
      }
      ReadProfileFound(st, lines, i, begin.value);
      next, order := ProfileBody(st, lines, begin.value + 1, dir);
    }
  }
}
