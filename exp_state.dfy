/**
 * The session-header classifier of eyeBlinkDataSave.py: the `ExpState`
 * object, its `current_state`, and the line loop of `process_data`, which
 * fills `mouseName` and then `session` from lines read off the serial port.
 */
module ExperimentState {
  import opened Text

  /** The three values `current_state` returns. */
  datatype Phase = WaitingForMouseInfo | WaitingForSessionInfo | WaitingForData

  function Rank(p: Phase): nat
  {
    match p
    case WaitingForMouseInfo => 0
    case WaitingForSessionInfo => 1
    case WaitingForData => 2
  }

  /** The fields of `ExpState` the classifier reads or writes: `mouseName`
      (None until set), `session` (a list, empty until set) and `state`, the
      value `current_state` stored last (None before its first call).
      `sessionNo` and `trialNo` are never used and are not modelled. */
  datatype Snapshot = Snapshot(mouseName: Option<string>, session: seq<string>, state: Option<Phase>)

  /** `ExpState()` as `__init__` leaves it. */
  const Initial := Snapshot(None, [], None)

  /** Python truthiness of `mouseName`: None and "" are false. */
  predicate HasMouse(s: Snapshot) { s.mouseName.Some? && s.mouseName.value != [] }

  /** What `current_state` computes; it reads `mouseName` and `session` only. */
  function PhaseOf(s: Snapshot): (r: Phase)
    ensures r == WaitingForData <==> HasMouse(s) && s.session != []
    ensures r == WaitingForSessionInfo <==> HasMouse(s) && s.session == []
    ensures r == WaitingForMouseInfo <==> !HasMouse(s)
  {
    if HasMouse(s) && s.session != [] then WaitingForData
    else if HasMouse(s) then WaitingForSessionInfo
    else WaitingForMouseInfo
  }

  /** The session is never known without the mouse. */
  predicate Consistent(s: Snapshot) { s.session != [] ==> HasMouse(s) }

  // `re.compile(r'Mouse(?P<name>\w\d)')`

  /** The mouse pattern matches at position `p` of `line`. */
  predicate MouseAt(line: string, p: nat)
  {
    p + 7 <= |line| && line[p..p + 5] == "Mouse" && IsWordChar(line[p + 5]) && IsDigit(line[p + 6])
  }

  /** The leftmost match at or after `p`, as `search` tries the positions. */
  function MouseFrom(line: string, p: nat): (r: Option<nat>)
    requires p <= |line|
    ensures r.Some? ==> p <= r.value && MouseAt(line, r.value)
    ensures forall q :: p <= q && (r.None? || q < r.value) ==> !MouseAt(line, q)
    decreases |line| - p
  {
    if p + 7 > |line| then None
    else if MouseAt(line, p) then Some(p)
    else MouseFrom(line, p + 1)
  }

  /** `mousePat.search(line)` and then `group('name')`. */
  function MouseSearch(line: string): (r: Option<string>)
    ensures r.None? <==> forall p: nat :: !MouseAt(line, p)
    ensures r.Some? ==> exists p: nat :: MouseAt(line, p) && (forall q: nat :: q < p ==> !MouseAt(line, q))
                                    && r.value == line[p + 5..p + 7]
  {
    match MouseFrom(line, 0)
    case None => None
    case Some(p) => Some(line[p + 5..p + 7])
  }

  // `re.compile(r'Session(?P<sno>\d+)\:\s*(?P<stype>(Cntrl|Delay|Trace))')`

  /** The `sno` and `stype` groups of a session match. */
  datatype SessionInfo = SessionInfo(number: string, kind: string)

  predicate IsSessionKind(t: string) { t == "Cntrl" || t == "Delay" || t == "Trace" }

  /** Length of the digit run of `s` from `i`. */
  function DigitRun(s: string, i: nat): (n: nat)
    requires i <= |s|
    ensures i + n <= |s|
    decreases |s| - i
  {
    if i < |s| && IsDigit(s[i]) then 1 + DigitRun(s, i + 1) else 0
  }

  /** The run is all digits and stops before a non-digit or at the end. */
  lemma {:induction false} DigitRunSpec(s: string, i: nat)
    requires i <= |s|
    ensures forall j :: i <= j < i + DigitRun(s, i) ==> IsDigit(s[j])
    ensures i + DigitRun(s, i) < |s| ==> !IsDigit(s[i + DigitRun(s, i)])
    decreases |s| - i
  {
    if i < |s| && IsDigit(s[i]) {
      DigitRunSpec(s, i + 1);
    }
  }

  /** Length of the whitespace run of `s` from `i`. */
  function SpaceRun(s: string, i: nat): (n: nat)
    requires i <= |s|
    ensures i + n <= |s|
    decreases |s| - i
  {
    if i < |s| && IsSpace(s[i]) then 1 + SpaceRun(s, i + 1) else 0
  }

  /** The run is all whitespace and stops before a non-space or at the end. */
  lemma {:induction false} SpaceRunSpec(s: string, i: nat)
    requires i <= |s|
    ensures forall j :: i <= j < i + SpaceRun(s, i) ==> IsSpace(s[j])
    ensures i + SpaceRun(s, i) < |s| ==> !IsSpace(s[i + SpaceRun(s, i)])
    decreases |s| - i
  {
    if i < |s| && IsSpace(s[i]) {
      SpaceRunSpec(s, i + 1);
    }
  }

  /** A match of the session pattern at `p`, read declaratively: "Session",
      the digits `number`, ":", `gap` whitespace characters, then `kind`. */
  predicate SessionShape(line: string, p: nat, number: string, gap: nat, kind: string)
  {
    var colon := p + 7 + |number|;
    var k := colon + 1 + gap;
    && IsSessionKind(kind)
    && k + |kind| <= |line|
    && line[p..p + 7] == "Session"
    && number != [] && line[p + 7..colon] == number
    && (forall j :: p + 7 <= j < colon ==> IsDigit(line[j]))
    && line[colon] == ':'
    && (forall j :: colon < j < k ==> IsSpace(line[j]))
    && line[k..k + |kind|] == kind
  }

  /** The session pattern as the regex engine tries it at position `p`.
      `\d+` and `\s*` are greedy and backtracking cannot help: a shorter
      digit run leaves a digit where `:` is needed, and a shorter whitespace
      run leaves whitespace where `C`, `D` or `T` is needed. */
  function SessionAt(line: string, p: nat): Option<SessionInfo>
  {
    if p + 7 <= |line| && line[p..p + 7] == "Session" then
      var n := DigitRun(line, p + 7);
      var colon := p + 7 + n;
      if n > 0 && colon < |line| && line[colon] == ':' then
        var w := SpaceRun(line, colon + 1);
        var k := colon + 1 + w;
        if k + 5 <= |line| && IsSessionKind(line[k..k + 5]) then
          Some(SessionInfo(line[p + 7..colon], line[k..k + 5]))
        else None
      else None
    else None
  }

  lemma {:induction false} DigitRunExact(s: string, i: nat, m: nat)
    requires i + m <= |s| && forall j :: i <= j < i + m ==> IsDigit(s[j])
    requires i + m < |s| ==> !IsDigit(s[i + m])
    ensures DigitRun(s, i) == m
    decreases m
  {
    if m > 0 {
      DigitRunExact(s, i + 1, m - 1);
    }
  }

  lemma {:induction false} SpaceRunExact(s: string, i: nat, m: nat)
    requires i + m <= |s| && forall j :: i <= j < i + m ==> IsSpace(s[j])
    requires i + m < |s| ==> !IsSpace(s[i + m])
    ensures SpaceRun(s, i) == m
    decreases m
  {
    if m > 0 {
      SpaceRunExact(s, i + 1, m - 1);
    }
  }

  /** The run `\s*` consumes is the whitespace `strip()` removes from the
      front of the rest of the line. */
  lemma SpaceRunIsLeadingSpace(s: string, i: nat)
    requires i <= |s|
    ensures SpaceRun(s, i) == LeadingSpace(s[i..])
  {
    var n := LeadingSpace(s[i..]);
    forall j | i <= j < i + n ensures IsSpace(s[j]) {
      assert s[i..][..n][j - i] == s[j];
    }
    assert i + n < |s| ==> s[i..][n] == s[i + n];
    SpaceRunExact(s, i, n);
  }

  /** A match `SessionAt` finds has the shape of the pattern. */
  lemma SessionAtShape(line: string, p: nat)
    requires SessionAt(line, p).Some?
    ensures var r := SessionAt(line, p).value;
            p + 8 + |r.number| <= |line| && SessionShape(line, p, r.number, SpaceRun(line, p + 8 + |r.number|), r.kind)
  {
    var n := DigitRun(line, p + 7);
    DigitRunSpec(line, p + 7);
    SpaceRunSpec(line, p + 8 + n);
  }

  /** Every way the pattern can match at `p` is the match `SessionAt` finds. */
  lemma SessionAtComplete(line: string, p: nat, number: string, gap: nat, kind: string)
    requires SessionShape(line, p, number, gap, kind)
    ensures SessionAt(line, p) == Some(SessionInfo(number, kind))
  {
    var colon := p + 7 + |number|;
    var k := colon + 1 + gap;
    assert |kind| == 5 && (kind[0] == 'C' || kind[0] == 'D' || kind[0] == 'T');
    assert line[colon] == ':' && !IsDigit(line[colon]);
    DigitRunExact(line, p + 7, |number|);
    assert line[k] == kind[0] && !IsSpace(line[k]);
    SpaceRunExact(line, colon + 1, gap);
    SessionAtFound(line, p, |number|, gap);
  }

  /** `SessionAt` once the lengths of the digit and whitespace runs are known. */
  lemma SessionAtFound(line: string, p: nat, n: nat, w: nat)
    requires p + 7 <= |line| && line[p..p + 7] == "Session"
    requires DigitRun(line, p + 7) == n && n > 0
    requires p + 7 + n < |line| && line[p + 7 + n] == ':'
    requires SpaceRun(line, p + 8 + n) == w
    requires p + 8 + n + w + 5 <= |line| && IsSessionKind(line[p + 8 + n + w..p + 13 + n + w])
    ensures SessionAt(line, p) == Some(SessionInfo(line[p + 7..p + 7 + n], line[p + 8 + n + w..p + 13 + n + w]))
  {
  }

  /** The leftmost position at or after `p` where the session pattern matches. */
  function SessionFrom(line: string, p: nat): (r: Option<nat>)
    requires p <= |line|
    ensures r.Some? ==> p <= r.value <= |line| && SessionAt(line, r.value).Some?
    ensures forall q: nat :: p <= q && (r.None? || q < r.value) ==> SessionAt(line, q).None?
    decreases |line| - p
  {
    if SessionAt(line, p).Some? then Some(p)
    else if p == |line| then None
    else SessionFrom(line, p + 1)
  }

  /** `sesPat.search(line)` and then the groups `sno` and `stype`. */
  function SessionSearch(line: string): (r: Option<SessionInfo>)
    ensures r.None? <==> forall p: nat :: SessionAt(line, p).None?
    ensures r.Some? ==> exists p: nat :: r == SessionAt(line, p) && forall q: nat :: q < p ==> SessionAt(line, q).None?
  {
    match SessionFrom(line, 0)
    case None => None
    case Some(p) => SessionAt(line, p)
  }

  /** A line whose stripped text the mouse pattern finds. */
  ghost predicate IsMouseLine(raw: string) { exists p: nat :: MouseAt(Strip(raw), p) }

  /** A line whose stripped text the session pattern finds somewhere. */
  ghost predicate IsSessionLine(raw: string) { exists p: nat :: SessionAt(Strip(raw), p).Some? }

  /** One pass of the `process_data` loop body on the line `raw` read from
      the port: strip it, skip it if blank, otherwise match it against the
      pattern of the current phase (each `current_state` call stores the
      phase before any field changes) and fill the field it names. */
  function Step(s: Snapshot, raw: string): (r: Snapshot)
    ensures Strip(raw) == [] ==> r == s
    ensures Strip(raw) != [] ==> r.state == Some(PhaseOf(s))
    ensures HasMouse(s) ==> r.mouseName == s.mouseName
    ensures s.session != [] ==> r.session == s.session
    ensures PhaseOf(s) == WaitingForData ==> r.mouseName == s.mouseName && r.session == s.session
    ensures Rank(PhaseOf(s)) <= Rank(PhaseOf(r))
    ensures Consistent(s) ==> Consistent(r) && Rank(PhaseOf(r)) <= Rank(PhaseOf(s)) + 1
  {
    var line := Strip(raw);
    if line == [] then s
    else
      var seen := s.(state := Some(PhaseOf(s)));
      match PhaseOf(s)
      case WaitingForMouseInfo =>
        (match MouseSearch(line)
         case Some(name) => seen.(mouseName := Some(name))
         case None => seen)
      case WaitingForSessionInfo =>
        (match SessionSearch(line)
         case Some(m) => seen.(session := [m.number, m.kind])
         case None => seen)
      case WaitingForData => seen
  }

  /** Waiting for the mouse, a line holding `Mouse` + word character + digit
      sets `mouseName` to those two characters of the leftmost match. */
  lemma StepRecordsMouse(s: Snapshot, raw: string, p: nat)
    requires PhaseOf(s) == WaitingForMouseInfo
    requires MouseAt(Strip(raw), p) && forall q: nat :: q < p ==> !MouseAt(Strip(raw), q)
    ensures Step(s, raw) == s.(mouseName := Some(Strip(raw)[p + 5..p + 7]), state := Some(WaitingForMouseInfo))
  {
    var line := Strip(raw);
    var r := MouseFrom(line, 0);
    assert r.Some? && r.value == p;
  }

  /** Waiting for the mouse, any other line leaves both fields as they are. */
  lemma StepSkipsNonMouseLine(s: Snapshot, raw: string)
    requires PhaseOf(s) == WaitingForMouseInfo
    requires !IsMouseLine(raw)
    ensures Step(s, raw).mouseName == s.mouseName && Step(s, raw).session == s.session
  {
  }

  /** Waiting for the session, a matching line sets `session` to
      `[digits, type]` of the leftmost match and leaves `mouseName` alone. */
  lemma StepRecordsSession(s: Snapshot, raw: string, p: nat, number: string, gap: nat, kind: string)
    requires PhaseOf(s) == WaitingForSessionInfo
    requires SessionShape(Strip(raw), p, number, gap, kind)
    requires forall q: nat, n, g, t :: q < p ==> !SessionShape(Strip(raw), q, n, g, t)
    ensures Step(s, raw) == s.(session := [number, kind], state := Some(WaitingForSessionInfo))
  {
    var line := Strip(raw);
    SessionAtComplete(line, p, number, gap, kind);
    forall q: nat | q < p ensures SessionAt(line, q).None? {
      if SessionAt(line, q).Some? {
        SessionAtShape(line, q);
        assert false;
      }
    }
    assert SessionFrom(line, 0) == Some(p);
  }

  /** Waiting for the session, any other line leaves both fields as they are. */
  lemma StepSkipsNonSessionLine(s: Snapshot, raw: string)
    requires PhaseOf(s) == WaitingForSessionInfo
    requires !IsSessionLine(raw)
    ensures Step(s, raw).mouseName == s.mouseName && Step(s, raw).session == s.session
  {
  }

  /** Waiting for the mouse, a mouse line records a non-empty name. */
  lemma StepOnMouseLine(s: Snapshot, raw: string)
    requires PhaseOf(s) == WaitingForMouseInfo && IsMouseLine(raw)
    ensures Step(s, raw).mouseName == MouseSearch(Strip(raw)) && HasMouse(Step(s, raw))
  {
    var p: nat :| MouseAt(Strip(raw), p);
    assert MouseSearch(Strip(raw)).Some?;
  }

  /** Waiting for the session, a session line records it and completes the header. */
  lemma StepOnSessionLine(s: Snapshot, raw: string)
    requires PhaseOf(s) == WaitingForSessionInfo && IsSessionLine(raw)
    ensures SessionSearch(Strip(raw)).Some?
    ensures Step(s, raw).session == [SessionSearch(Strip(raw)).value.number, SessionSearch(Strip(raw)).value.kind]
    ensures PhaseOf(Step(s, raw)) == WaitingForData
  {
    var p: nat :| SessionAt(Strip(raw), p).Some?;
  }

  /** The `process_data` loop over a finite prefix `lines` of the port's output. */
  function Run(s: Snapshot, lines: seq<string>): Snapshot
    decreases |lines|
  {
    if lines == [] then s else Step(Run(s, lines[..|lines| - 1]), lines[|lines| - 1])
  }

  lemma {:induction false} RunAppend(s: Snapshot, a: seq<string>, b: seq<string>)
    ensures Run(s, a + b) == Run(Run(s, a), b)
    decreases |b|
  {
    if b == [] {
      assert a + b == a;
    } else {
      assert (a + b)[..|a + b| - 1] == a + b[..|b| - 1];
      RunAppend(s, a, b[..|b| - 1]);
    }
  }

  /** The run split around the line at index `i`. */
  lemma RunAround(s: Snapshot, lines: seq<string>, i: nat)
    requires i < |lines|
    ensures Run(s, lines) == Run(Step(Run(s, lines[..i]), lines[i]), lines[i + 1..])
  {
    var pre, rest := lines[..i], lines[i + 1..];
    assert lines == pre + [lines[i]] + rest;
    RunAppend(s, pre + [lines[i]], rest);
    RunAppend(s, pre, [lines[i]]);
    assert [lines[i]][..0] == [];
  }

  /** Over any line sequence the phase only moves forward, a field once set
      is never overwritten, and once the data phase is reached no line
      changes a field. */
  lemma {:induction false} RunOnlyMovesForward(s: Snapshot, lines: seq<string>)
    ensures Rank(PhaseOf(s)) <= Rank(PhaseOf(Run(s, lines)))
    ensures HasMouse(s) ==> Run(s, lines).mouseName == s.mouseName
    ensures s.session != [] ==> Run(s, lines).session == s.session
    ensures PhaseOf(s) == WaitingForData ==> Run(s, lines).mouseName == s.mouseName && Run(s, lines).session == s.session
    ensures Consistent(s) ==> Consistent(Run(s, lines))
    decreases |lines|
  {
    if lines != [] {
      RunOnlyMovesForward(s, lines[..|lines| - 1]);
    }
  }

  /** Waiting for the mouse, a line moves the classifier on exactly when
      it is a mouse line. */
  lemma StepLeavesMousePhaseIff(s: Snapshot, raw: string)
    requires PhaseOf(s) == WaitingForMouseInfo
    ensures PhaseOf(Step(s, raw)) == WaitingForMouseInfo <==> !IsMouseLine(raw)
  {
    if IsMouseLine(raw) {
      StepOnMouseLine(s, raw);
    } else {
      StepSkipsNonMouseLine(s, raw);
    }
  }

  /** Waiting for the session, a line completes the header exactly when it
      is a session line. */
  lemma StepReachesDataPhaseIff(s: Snapshot, raw: string)
    requires PhaseOf(s) == WaitingForSessionInfo
    ensures PhaseOf(Step(s, raw)) == WaitingForData <==> IsSessionLine(raw)
  {
    if IsSessionLine(raw) {
      StepOnSessionLine(s, raw);
    } else {
      StepSkipsNonSessionLine(s, raw);
    }
  }

  /** Some line of `lines` has the property `P`. */
  ghost predicate SomeLine(lines: seq<string>, P: string -> bool)
  {
    exists i :: 0 <= i < |lines| && P(lines[i])
  }

  /** A line sequence has a line with `P` exactly when the lines before its
      last one have, or the last one has `P`. */
  lemma SomeLineSnoc(lines: seq<string>, P: string -> bool)
    requires lines != []
    ensures SomeLine(lines, P) <==> SomeLine(lines[..|lines| - 1], P) || P(lines[|lines| - 1])
  {
    var init := lines[..|lines| - 1];
    if SomeLine(init, P) {
      var i :| 0 <= i < |init| && P(init[i]);
      assert lines[i] == init[i];
    }
    if SomeLine(lines, P) {
      var i :| 0 <= i < |lines| && P(lines[i]);
      if i < |init| {
        assert init[i] == lines[i];
      }
    }
  }

  /** A line with `P` at index `k` is a line with `P`. */
  lemma SomeLineAt(lines: seq<string>, P: string -> bool, k: nat)
    requires k < |lines| && P(lines[k])
    ensures SomeLine(lines, P)
  {
  }

  /** Starting while waiting for the mouse, the classifier is still waiting
      for it exactly when no line so far was a mouse line. */
  lemma {:induction false} LeavesMousePhaseIff(s: Snapshot, lines: seq<string>)
    requires PhaseOf(s) == WaitingForMouseInfo
    ensures PhaseOf(Run(s, lines)) == WaitingForMouseInfo <==> !SomeLine(lines, IsMouseLine)
    decreases |lines|
  {
    if lines != [] {
      var init, last := lines[..|lines| - 1], lines[|lines| - 1];
      LeavesMousePhaseIff(s, init);
      SomeLineSnoc(lines, IsMouseLine);
      var before := Run(s, init);
      assert Run(s, lines) == Step(before, last);
      if PhaseOf(before) == WaitingForMouseInfo {
        StepLeavesMousePhaseIff(before, last);
      }
    }
  }

  /** Starting while waiting for the session, the data phase is reached
      exactly when some line was a session line. */
  lemma {:induction false} ReachesDataPhaseIff(s: Snapshot, lines: seq<string>)
    requires PhaseOf(s) == WaitingForSessionInfo
    ensures PhaseOf(Run(s, lines)) == WaitingForData <==> SomeLine(lines, IsSessionLine)
    decreases |lines|
  {
    if lines != [] {
      var init, last := lines[..|lines| - 1], lines[|lines| - 1];
      ReachesDataPhaseIff(s, init);
      RunOnlyMovesForward(s, init);
      SomeLineSnoc(lines, IsSessionLine);
      var before := Run(s, init);
      assert Run(s, lines) == Step(before, last);
      if PhaseOf(before) != WaitingForData {
        StepReachesDataPhaseIff(before, last);
      }
    }
  }

  /** A mouse line followed later by a session line completes the header. */
  lemma MouseThenSessionCompletes(s: Snapshot, lines: seq<string>, i: nat, j: nat)
    requires PhaseOf(s) == WaitingForMouseInfo
    requires i < j < |lines| && IsMouseLine(lines[i]) && IsSessionLine(lines[j])
    ensures PhaseOf(Run(s, lines)) == WaitingForData
  {
    var pre := lines[..j];
    assert pre[i] == lines[i];
    assert IsMouseLine(pre[i]);
    SomeLineAt(pre, IsMouseLine, i);
    LeavesMousePhaseIff(s, pre);
    var before := Run(s, pre);
    RunOnlyMovesForward(s, pre);
    RunAround(s, lines, j);
    var after := Step(before, lines[j]);
    if PhaseOf(before) == WaitingForSessionInfo {
      StepReachesDataPhaseIff(before, lines[j]);
    }
    RunOnlyMovesForward(after, lines[j + 1..]);
  }

  /** Reaching the data phase from a consistent state waiting for the mouse
      takes a mouse line and, after it, a session line. */
  lemma {:induction false} CompletedHeaderHasBothLines(s: Snapshot, lines: seq<string>)
    requires PhaseOf(s) == WaitingForMouseInfo && Consistent(s)
    requires PhaseOf(Run(s, lines)) == WaitingForData
    ensures exists i, j :: 0 <= i < j < |lines| && IsMouseLine(lines[i]) && IsSessionLine(lines[j])
    decreases |lines|
  {
    var init := lines[..|lines| - 1];
    RunOnlyMovesForward(s, init);
    var before := Run(s, init);
    if PhaseOf(before) == WaitingForData {
      CompletedHeaderHasBothLines(s, init);
      var i, j :| 0 <= i < j < |init| && IsMouseLine(init[i]) && IsSessionLine(init[j]);
      assert init[i] == lines[i] && init[j] == lines[j];
    } else {
      LastLineCompletesHeader(s, lines);
    }
  }

  /** When the data phase is reached on the last line, that line is a
      session line and some earlier line a mouse line. */
  lemma LastLineCompletesHeader(s: Snapshot, lines: seq<string>)
    requires PhaseOf(s) == WaitingForMouseInfo && lines != []
    requires PhaseOf(Run(s, lines[..|lines| - 1])) == WaitingForSessionInfo
    requires PhaseOf(Run(s, lines)) == WaitingForData
    ensures exists i, j :: 0 <= i < j < |lines| && IsMouseLine(lines[i]) && IsSessionLine(lines[j])
  {
    var init, last := lines[..|lines| - 1], lines[|lines| - 1];
    StepReachesDataPhaseIff(Run(s, init), last);
    LeavesMousePhaseIff(s, init);
    var i :| 0 <= i < |init| && IsMouseLine(init[i]);
    assert init[i] == lines[i];
    assert IsMouseLine(lines[i]) && IsSessionLine(lines[|lines| - 1]);
  }

  /** Some mouse line is followed, later on, by a session line. */
  ghost predicate MouseThenSession(lines: seq<string>)
  {
    exists i, j :: 0 <= i < j < |lines| && IsMouseLine(lines[i]) && IsSessionLine(lines[j])
  }

  /** From a consistent state waiting for the mouse, the data phase is reached
      exactly when a mouse line is followed, later on, by a session line. */
  lemma HeaderCompleteIff(s: Snapshot, lines: seq<string>)
    requires PhaseOf(s) == WaitingForMouseInfo && Consistent(s)
    ensures PhaseOf(Run(s, lines)) == WaitingForData <==> MouseThenSession(lines)
  {
    if MouseThenSession(lines) {
      var i, j :| 0 <= i < j < |lines| && IsMouseLine(lines[i]) && IsSessionLine(lines[j]);
      MouseThenSessionCompletes(s, lines, i, j);
    }
    if PhaseOf(Run(s, lines)) == WaitingForData {
      CompletedHeaderHasBothLines(s, lines);
    }
  }

  /** The recorded mouse name comes from the first mouse line. */
  lemma FirstMouseLineWins(s: Snapshot, lines: seq<string>, i: nat)
    requires PhaseOf(s) == WaitingForMouseInfo
    requires i < |lines| && IsMouseLine(lines[i])
    requires forall j :: 0 <= j < i ==> !IsMouseLine(lines[j])
    ensures Run(s, lines).mouseName == MouseSearch(Strip(lines[i]))
  {
    RunAround(s, lines, i);
    StillWaitingForMouse(s, lines, i);
    var before := Run(s, lines[..i]);
    StepOnMouseLine(before, lines[i]);
    RunOnlyMovesForward(Step(before, lines[i]), lines[i + 1..]);
  }

  /** Without a mouse line the classifier keeps waiting for one. */
  lemma StillWaitingForMouse(s: Snapshot, lines: seq<string>, i: nat)
    requires PhaseOf(s) == WaitingForMouseInfo
    requires i <= |lines| && forall j :: 0 <= j < i ==> !IsMouseLine(lines[j])
    ensures PhaseOf(Run(s, lines[..i])) == WaitingForMouseInfo
  {
    var pre := lines[..i];
    assert forall j :: 0 <= j < |pre| ==> pre[j] == lines[j];
    LeavesMousePhaseIff(s, pre);
  }

  /** Without a session line the classifier keeps waiting for one. */
  lemma StillWaitingForSession(s: Snapshot, lines: seq<string>, i: nat)
    requires PhaseOf(s) == WaitingForSessionInfo
    requires i <= |lines| && forall j :: 0 <= j < i ==> !IsSessionLine(lines[j])
    ensures PhaseOf(Run(s, lines[..i])) == WaitingForSessionInfo
  {
    var pre := lines[..i];
    assert forall j :: 0 <= j < |pre| ==> pre[j] == lines[j];
    ReachesDataPhaseIff(s, pre);
    RunOnlyMovesForward(s, pre);
  }

  /** The recorded session comes from the first session line. */
  lemma FirstSessionLineWins(s: Snapshot, lines: seq<string>, i: nat)
    requires PhaseOf(s) == WaitingForSessionInfo
    requires i < |lines| && IsSessionLine(lines[i])
    requires forall j :: 0 <= j < i ==> !IsSessionLine(lines[j])
    ensures SessionSearch(Strip(lines[i])).Some?
    ensures Run(s, lines).session == [SessionSearch(Strip(lines[i])).value.number, SessionSearch(Strip(lines[i])).value.kind]
  {
    RunAround(s, lines, i);
    StillWaitingForSession(s, lines, i);
    var before := Run(s, lines[..i]);
    StepOnSessionLine(before, lines[i]);
    RunOnlyMovesForward(Step(before, lines[i]), lines[i + 1..]);
  }

  /** The `exp_` object of eyeBlinkDataSave.py. */
  class ExpState {
    var mouseName: Option<string>
    var session: seq<string>
    var state: Option<Phase>

    /** `ExpState()`. */
    constructor ()
      ensures Snap() == Initial
    {
      mouseName, session, state := None, [], None;
    }

    function Snap(): Snapshot
      reads this
    {
      Snapshot(mouseName, session, state)
    }

    /** `current_state`: computes the phase from the fields, stores it in
        `state` and returns it. */
    method CurrentState() returns (p: Phase)
      modifies this`state
      ensures p == PhaseOf(old(Snap()))
      ensures Snap() == old(Snap()).(state := Some(p))
    {
      if mouseName.Some? && mouseName.value != [] && session != [] {
        state := Some(WaitingForData);
      } else if mouseName.Some? && mouseName.value != [] {
        state := Some(WaitingForSessionInfo);
      } else {
        state := Some(WaitingForMouseInfo);
      }
      p := state.value;
    }

    /** One pass of the `process_data` loop on the line `raw` read from the port. */
    method ProcessLine(raw: string)
      modifies this
      ensures Snap() == Step(old(Snap()), raw)
    {
      var line := Strip(raw);
      if line == [] {
        return;
      }
      var p := CurrentState();
      if p == WaitingForMouseInfo {
        var m := MouseSearch(line);
        if m.Some? {
          mouseName := m;
        }
      } else {
        p := CurrentState();
        if p == WaitingForSessionInfo {
          var m := SessionSearch(line);
          if m.Some? {
            session := [m.value.number, m.value.kind];
          }
        } else {
          // WAITING_FOR_DATA: the line is only echoed to the console.
          p := CurrentState();
        }
      }
    }

    /** The `process_data` loop over a finite prefix `lines` of what the
        port delivers (the loop itself never returns). */
    method ProcessData(lines: seq<string>)
      modifies this
      ensures Snap() == Run(old(Snap()), lines)
    {
      for i := 0 to |lines|
        invariant Snap() == Run(old(Snap()), lines[..i])
      {
        assert lines[..i + 1][..i] == lines[..i];
        ProcessLine(lines[i]);
      }
      assert lines[..|lines|] == lines;
    }
  }
}
