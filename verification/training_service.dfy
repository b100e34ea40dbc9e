/** The training service's own decisions around the GPT-SoVITS few-shot
    pipeline: where the pretrained models live, the shape of the progress
    events it prints, the validation of the uploaded recording, the choice
    of the reference clip among the transcribed segments, the choice of the
    final checkpoints, and the events a run prints. The machine-learning
    work itself (slicing, denoising, recognition, feature extraction,
    training) and the file system are oracles. */
module TrainingService {
  import opened Wrappers
  import opened Strings
  import TrainingManager

  // ------------------------------------------------------------------
  // Pretrained models directory

  predicate IsSlash(c: char) {
    c == '/'
  }

  /** `os.path.expanduser` for `~` and `~/...`: the home directory, with
      its trailing slashes removed, replaces the tilde, and an empty result
      becomes "/". Every other path is returned as it is. */
  function ExpandUser(path: string, home: string): (r: string)
    ensures !(path == "~" || StartsWith(path, "~/")) ==> r == path
    ensures path != [] ==> r != []
  {
    if path == "~" || StartsWith(path, "~/") then
      var expanded := TrimEnd(home, IsSlash) + path[1..];
      if expanded == [] then "/" else expanded
    else path
  }

  /** `get_pretrained_models_dir`: `<PRIMESPEECH_MODEL_DIR>/moyoyo` when
      the variable is set and non-empty, `~/.dora/models/primespeech/moyoyo`
      otherwise. */
  function PretrainedModelsDir(env: Option<string>, home: string): (r: string)
    ensures EndsWith(r, "/moyoyo")
    ensures env.None? || env.value == [] ==>
      r == TrimEnd(home, IsSlash) + "/" + ".dora" + "/" + "models" + "/" + "primespeech" + "/" + "moyoyo"
    ensures env.Some? && env.value != [] && env.value[0] != '~' ==> StartsWith(r, env.value)
  {
    if env.Some? && env.value != [] then
      EnvModelsDir(env.value, home);
      JoinPath(ExpandUser(env.value, home), "moyoyo")
    else
      var primespeech := JoinPath(JoinPath(JoinPath(ExpandUser("~", home), ".dora"), "models"), "primespeech");
      HomeModelsDir(home);
      JoinMoyoyo(primespeech);
      JoinPath(primespeech, "moyoyo")
  }

  /** The models folder under a non-empty `PRIMESPEECH_MODEL_DIR`. */
  lemma EnvModelsDir(dir: string, home: string)
    requires dir != []
    ensures var r := JoinPath(ExpandUser(dir, home), "moyoyo");
      EndsWith(r, "/moyoyo") && (dir[0] != '~' ==> StartsWith(r, dir))
  {
    var base := ExpandUser(dir, home);
    JoinMoyoyo(base);
    if dir[0] != '~' {
      assert !StartsWith(dir, "~/") && dir != "~";
      assert base == dir;
    }
  }

  /** `moyoyo` joined onto a non-empty directory lies inside it. */
  lemma JoinMoyoyo(base: string)
    requires base != []
    ensures StartsWith(JoinPath(base, "moyoyo"), base) && EndsWith(JoinPath(base, "moyoyo"), "/moyoyo")
  {
    assert !StartsWith("moyoyo", "/") by {
      assert "moyoyo"[..1] == "m";
    }
    var r := JoinPath(base, "moyoyo");
    if EndsWith(base, "/") {
      assert r == base + "moyoyo";
      assert r[|r| - 7..] == [base[|base| - 1]] + "moyoyo";
    } else {
      assert r == base + "/moyoyo";
    }
    assert r[..|base|] == base;
  }

  /** A relative part that does not end in a slash. */
  predicate Segment(p: string) {
    p != [] && p[0] != '/' && p[|p| - 1] != '/'
  }

  /** Joining a segment onto a base that does not end in a slash inserts
      exactly one. */
  lemma JoinSegment(base: string, part: string)
    requires base != [] && base[|base| - 1] != '/' && Segment(part)
    ensures JoinPath(base, part) == base + "/" + part
  {
    assert part[..1] == [part[0]];
    assert base[|base| - 1..] == [base[|base| - 1]];
  }

  lemma JoinSegments(base: string, p: string, q: string, r: string)
    requires base != [] && base[|base| - 1] != '/' && Segment(p) && Segment(q) && Segment(r)
    ensures JoinPath(JoinPath(JoinPath(base, p), q), r) == base + "/" + p + "/" + q + "/" + r
  {
    JoinSegment(base, p);
    JoinSegment(base + "/" + p, q);
    JoinSegment(base + "/" + p + "/" + q, r);
  }

  /** Without the variable the directory lies under the home directory,
      whose trailing slashes are dropped. */
  lemma HomeModelsDir(home: string)
    ensures JoinPath(JoinPath(JoinPath(JoinPath(ExpandUser("~", home), ".dora"), "models"), "primespeech"), "moyoyo")
      == TrimEnd(home, IsSlash) + "/" + ".dora" + "/" + "models" + "/" + "primespeech" + "/" + "moyoyo"
  {
    var h := TrimEnd(home, IsSlash);
    var dora := JoinPath(ExpandUser("~", home), ".dora");
    assert dora == h + "/" + ".dora" by {
      assert "~"[1..] == [];
      if h == [] {
        assert ExpandUser("~", home) == "/";
        assert ".dora"[..1] == ".";
      } else {
        JoinSegment(h, ".dora");
      }
    }
    JoinSegments(dora, "models", "primespeech", "moyoyo");
  }

  // ------------------------------------------------------------------
  // Progress events

  type JsonObject = map<string, TrainingManager.JsonValue>

  /** A progress event as printed: its type, message, the clock reading
      and the data object when there is one. */
  datatype ProgressEvent = ProgressEvent(eventType: string, message: string, timestamp: real,
                                         data: Option<JsonObject>)

  /** `emit_progress`: the data is attached only when it is truthy, that
      is given and not an empty object. */
  function EmitProgress(eventType: string, message: string, data: Option<JsonObject>, now: real): (e: ProgressEvent)
    ensures e.eventType == eventType && e.message == message && e.timestamp == now
    ensures e.data.Some? <==> data.Some? && data.value != map[]
    ensures e.data.Some? ==> e.data == data
  {
    ProgressEvent(eventType, message, now, if data.Some? && data.value != map[] then data else None)
  }

  /** The line the training manager parses out of a printed event. */
  function AsLine(e: ProgressEvent): TrainingManager.Line {
    TrainingManager.Event(e.eventType, e.message,
      if e.data.Some? then Some(TrainingManager.Object(e.data.value)) else None)
  }

  /** Because empty data is dropped, a completion printed with an empty
      object reaches the manager without data and completes nothing. */
  lemma EmptyCompletionCompletesNothing(p: TrainingManager.Progress, message: string, now: real, tick: nat)
    requires |p.logLines| <= TrainingManager.MaxLogLines
    ensures var line := AsLine(EmitProgress("COMPLETE", message, Some(map[]), now));
      line == TrainingManager.Event("COMPLETE", message, None)
      && TrainingManager.Apply(p, line, tick) == p.(lastUpdated := tick)
  {
    TrainingManager.CompleteWithoutData(p, message, tick);
  }

  // ------------------------------------------------------------------
  // Errors a run can end with

  datatype PipelineError =
    | AudioMissing(path: string)
    | AudioTooShort(duration: real, minimum: real)
    | NoSegments
    | AsrListMissing(path: string)
    | NoReference
    | NoGptCheckpoint
    | NoSovitsCheckpoint
    /** an exception from the unmodelled work of segment `segment` */
    | Raised(segment: nat, message: string)

  /** `str(e)` of each error; `fmt` is Python's `{:.1f}` formatting. */
  function Message(e: PipelineError, fmt: real -> string): string {
    match e
    case AudioMissing(path) => "Audio file not found: " + path
    case AudioTooShort(d, m) =>
      "Audio too short: " + fmt(d) + "s (minimum: " + fmt(m) + "s). Please provide at least 10 seconds of audio."
    case NoSegments => "Audio slicing produced no segments. Check audio quality and volume."
    case AsrListMissing(path) => "ASR list file not found: " + path
    case NoReference =>
      "No suitable reference audio found in training data. Audio segments should be 3-10 seconds with clear speech."
    case NoGptCheckpoint => "GPT training completed but no checkpoint found"
    case NoSovitsCheckpoint => "SoVITS training completed but no checkpoint found in models/"
    case Raised(_, message) => message
  }

  // ------------------------------------------------------------------
  // Recording validation

  const MinDuration: real := 10.0
  const MaxDuration: real := 600.0

  /** A recording that passed: its duration, and whether it was over the
      maximum, which is only warned about. */
  datatype Validated = Validated(duration: real, warned: bool)

  /** `validate_audio_file`: a missing file fails first, then a duration
      under the minimum (an unreadable file measures 0.0 s); a duration
      over the maximum passes with a warning. */
  function ValidateAudioFile(path: string, fileExists: bool, duration: real,
                             minDuration: real, maxDuration: real): (r: Result<Validated, PipelineError>)
    ensures r.Ok? <==> fileExists && duration >= minDuration
    ensures r.Ok? ==> r.value.duration == duration && (r.value.warned <==> duration > maxDuration)
    ensures !fileExists ==> r == Err(AudioMissing(path))
    ensures fileExists && duration < minDuration ==> r == Err(AudioTooShort(duration, minDuration))
  {
    if !fileExists then Err(AudioMissing(path))
    else if duration < minDuration then Err(AudioTooShort(duration, minDuration))
    else Ok(Validated(duration, duration > maxDuration))
  }

  // ------------------------------------------------------------------
  // Reference clip selection

  /** A transcribed segment that may serve as the reference clip; `score`
      is its distance from the preferred 6 seconds. */
  datatype Candidate = Candidate(path: string, text: string, duration: real, score: real)

  function Abs(x: real): real {
    if x < 0.0 then -x else x
  }

  /** The fields of every line of the recognition list
      (`path|speaker|language|text`), as `line.strip().split('|')` cuts
      them. */
  function Rows(lines: seq<string>): (rows: seq<seq<string>>)
    ensures |rows| == |lines|
    ensures forall j :: 0 <= j < |lines| ==> rows[j] == SplitAll(PyStrip(lines[j]), '|')
  {
    seq(|lines|, j requires 0 <= j < |lines| => SplitAll(PyStrip(lines[j]), '|'))
  }

  /** The candidate the fields of a line give: there must be four, the
      text must have at least ten characters and the clip must last 3 to
      10 seconds (an unreadable clip measures 0.0 s). */
  function RowCandidate(parts: seq<string>, duration: string -> real): (r: Option<Candidate>)
    ensures r.Some? ==>
      3.0 <= r.value.duration <= 10.0 && |r.value.text| >= 10
      && r.value.duration == duration(r.value.path) && r.value.score == Abs(r.value.duration - 6.0)
  {
    if |parts| != 4 || |parts[3]| < 10 then None
    else
      var d := duration(parts[0]);
      if 3.0 <= d <= 10.0 then Some(Candidate(parts[0], parts[3], d, Abs(d - 6.0))) else None
  }

  /** The candidates of the rows, in line order. */
  function Candidates(rows: seq<seq<string>>, duration: string -> real): (cs: seq<Candidate>)
    ensures |cs| <= |rows|
    ensures forall k :: 0 <= k < |cs| ==>
      3.0 <= cs[k].duration <= 10.0 && |cs[k].text| >= 10 && 0.0 <= cs[k].score <= 4.0
  {
    if rows == [] then []
    else
      var rest := Candidates(rows[..|rows| - 1], duration);
      match RowCandidate(rows[|rows| - 1], duration)
      case Some(c) => rest + [c]
      case None => rest
  }

  /** One more row adds its candidate, if it has one, at the end. */
  lemma CandidatesSnoc(rows: seq<seq<string>>, n: nat, duration: string -> real)
    requires n < |rows|
    ensures Candidates(rows[..n + 1], duration) == Candidates(rows[..n], duration) +
      (if RowCandidate(rows[n], duration).Some? then [RowCandidate(rows[n], duration).value] else [])
  {
    assert rows[..n + 1][..n] == rows[..n];
  }

  /** Every candidate comes from a row. */
  lemma {:induction false} CandidateFromRow(rows: seq<seq<string>>, c: Candidate, duration: string -> real)
    requires c in Candidates(rows, duration)
    ensures exists j :: 0 <= j < |rows| && RowCandidate(rows[j], duration) == Some(c)
  {
    var init := rows[..|rows| - 1];
    if c in Candidates(init, duration) {
      CandidateFromRow(init, c, duration);
      var j :| 0 <= j < |init| && RowCandidate(init[j], duration) == Some(c);
      assert rows[j] == init[j];
    } else {
      assert RowCandidate(rows[|rows| - 1], duration) == Some(c);
    }
  }

  /** Every qualifying row gives a candidate. */
  lemma {:induction false} RowGivesCandidate(rows: seq<seq<string>>, j: nat, duration: string -> real)
    requires j < |rows| && RowCandidate(rows[j], duration).Some?
    ensures RowCandidate(rows[j], duration).value in Candidates(rows, duration)
  {
    var init := rows[..|rows| - 1];
    if j < |init| {
      assert init[j] == rows[j];
      RowGivesCandidate(init, j, duration);
    }
  }

  /** Position `i` holds the candidate a stable sort by score puts first:
      none scores lower, and every earlier one scores higher. */
  predicate IsBest(cs: seq<Candidate>, i: nat) {
    i < |cs|
    && (forall k :: 0 <= k < |cs| ==> cs[i].score <= cs[k].score)
    && (forall k :: 0 <= k < i ==> cs[i].score < cs[k].score)
  }

  /** The first candidate of least score. */
  function FirstBest(cs: seq<Candidate>): (i: nat)
    requires cs != []
    ensures IsBest(cs, i)
  {
    if |cs| == 1 then 0
    else
      var j := FirstBest(cs[..|cs| - 1]);
      if cs[|cs| - 1].score < cs[j].score then |cs| - 1 else j
  }

  /** `select_best_reference_audio`: the path and text of the first
      candidate of least score, or the error the source raises. */
  function Reference(listPath: string, listExists: bool, lines: seq<string>,
                     duration: string -> real): (r: Result<(string, string), PipelineError>)
    ensures !listExists ==> r == Err(AsrListMissing(listPath))
    ensures listExists && Candidates(Rows(lines), duration) == [] ==> r == Err(NoReference)
    ensures listExists && Candidates(Rows(lines), duration) != [] ==> r.Ok?
  {
    if !listExists then Err(AsrListMissing(listPath))
    else
      var cs := Candidates(Rows(lines), duration);
      if cs == [] then Err(NoReference)
      else
        var i := FirstBest(cs);
        Ok((cs[i].path, cs[i].text))
  }

  /** The clip chosen is the path and text of the first candidate of least
      score. */
  lemma ReferenceIsBest(listPath: string, listExists: bool, lines: seq<string>, duration: string -> real)
    requires Reference(listPath, listExists, lines, duration).Ok?
    ensures exists i: nat :: (IsBest(Candidates(Rows(lines), duration), i)
      && Reference(listPath, listExists, lines, duration).value
         == (Candidates(Rows(lines), duration)[i].path, Candidates(Rows(lines), duration)[i].text))
  {
    var cs := Candidates(Rows(lines), duration);
    var i := FirstBest(cs);
    assert IsBest(cs, i);
  }

  /** The first candidate of least score is a clip of 3 to 10 seconds,
      closest to 6 seconds among all qualifying rows. */
  lemma BestIsClosestToSixSeconds(rows: seq<seq<string>>, duration: string -> real, i: nat)
    requires IsBest(Candidates(rows, duration), i)
    ensures var c := Candidates(rows, duration)[i];
      3.0 <= duration(c.path) <= 10.0 && |c.text| >= 10
      && forall j :: 0 <= j < |rows| && RowCandidate(rows[j], duration).Some? ==>
           Abs(duration(c.path) - 6.0) <= RowCandidate(rows[j], duration).value.score
  {
    var cs := Candidates(rows, duration);
    CandidateFromRow(rows, cs[i], duration);
    var j0 :| 0 <= j0 < |rows| && RowCandidate(rows[j0], duration) == Some(cs[i]);
    forall j | 0 <= j < |rows| && RowCandidate(rows[j], duration).Some?
      ensures cs[i].score <= RowCandidate(rows[j], duration).value.score
    {
      RowGivesCandidate(rows, j, duration);
      var k :| 0 <= k < |cs| && cs[k] == RowCandidate(rows[j], duration).value;
    }
  }

  /** The loop of `select_best_reference_audio`; the stable sort by score
      followed by taking the first element is a scan for the first least
      score. */
  method SelectBestReference(listPath: string, listExists: bool, lines: seq<string>,
                             duration: string -> real)
    returns (r: Result<(string, string), PipelineError>)
    ensures r == Reference(listPath, listExists, lines, duration)
  {
    if !listExists {
      return Err(AsrListMissing(listPath));
    }
    var candidates := GatherCandidates(lines, duration);
    if candidates == [] {
      return Err(NoReference);
    }
    var best := FirstLeastScore(candidates);
    r := Ok((candidates[best].path, candidates[best].text));
  }

  /** The candidates gathered line by line, each line's test being
      `RowCandidate`. */
  method GatherCandidates(lines: seq<string>, duration: string -> real) returns (candidates: seq<Candidate>)
    ensures candidates == Candidates(Rows(lines), duration)
  {
    ghost var rows := Rows(lines);
    candidates := [];
    var n := 0;
    while n < |lines|
      invariant 0 <= n <= |lines|
      invariant candidates == Candidates(rows[..n], duration)
    {
      CandidatesSnoc(rows, n, duration);
      var parts := SplitAll(PyStrip(lines[n]), '|');
      assert parts == rows[n];
      var c := RowCandidate(parts, duration);
      if c.Some? {
        candidates := candidates + [c.value];
      }
      n := n + 1;
    }
    assert rows[..n] == rows;
  }

  /** The position a stable sort by score moves to the front. */
  method FirstLeastScore(candidates: seq<Candidate>) returns (best: nat)
    requires candidates != []
    ensures best == FirstBest(candidates)
  {
    best := 0;
    var k := 1;
    while k < |candidates|
      invariant 1 <= k <= |candidates|
      invariant best == FirstBest(candidates[..k])
    {
      assert candidates[..k + 1][..k] == candidates[..k];
      if candidates[k].score < candidates[best].score {
        best := k;
      }
      k := k + 1;
    }
    assert candidates[..k] == candidates;
  }

  // ------------------------------------------------------------------
  // Checkpoint choice

  /** Python's `<` on strings: code point by code point, with a proper
      prefix first. */
  predicate LexLess(a: string, b: string) {
    b != [] && (a == [] || a[0] < b[0] || (a[0] == b[0] && LexLess(a[1..], b[1..])))
  }

  lemma {:induction false} LexTrichotomy(a: string, b: string)
    ensures a == b || LexLess(a, b) || LexLess(b, a)
  {
    if a != [] && b != [] && a[0] == b[0] {
      LexTrichotomy(a[1..], b[1..]);
      if a[1..] == b[1..] {
        assert a == [a[0]] + a[1..] && b == [b[0]] + b[1..];
      }
    }
  }

  lemma {:induction false} LexAsymmetric(a: string, b: string)
    ensures !(LexLess(a, b) && LexLess(b, a))
  {
    if a != [] && b != [] && a[0] == b[0] {
      LexAsymmetric(a[1..], b[1..]);
    }
  }

  lemma {:induction false} LexTransitive(a: string, b: string, c: string)
    requires LexLess(a, b) && LexLess(b, c)
    ensures LexLess(a, c)
  {
    if a != [] && a[0] == b[0] && b[0] == c[0] {
      LexTransitive(a[1..], b[1..], c[1..]);
    }
  }

  /** A common prefix does not decide the order. */
  lemma {:induction false} LexCommonPrefix(p: string, a: string, b: string)
    ensures LexLess(p + a, p + b) == LexLess(a, b)
  {
    if p != [] {
      assert (p + a)[1..] == p[1..] + a;
      assert (p + b)[1..] == p[1..] + b;
      LexCommonPrefix(p[1..], a, b);
    } else {
      assert p + a == a && p + b == b;
    }
  }

  /** Length of the run of decimal digits `s` starts with. */
  function DigitRun(s: string): (n: nat)
    ensures n <= |s|
  {
    if s != [] && '0' <= s[0] <= '9' then 1 + DigitRun(s[1..]) else 0
  }

  /** Value of a string of decimal digits. */
  function DigitsValue(d: string): nat {
    if d == [] then 0
    else
      var v := d[|d| - 1] as int - '0' as int;
      DigitsValue(d[..|d| - 1]) * 10 + (if 0 <= v <= 9 then v else 0)
  }

  /** The epoch a checkpoint name records: the number after the `e` that
      follows the prefix and one separator (`sovits_model_e8_s96.pth` is
      epoch 8); 0 when the name has none. */
  function Epoch(name: string, prefix: string): nat {
    var p := |prefix| + 2;
    if StartsWith(name, prefix) && p <= |name| && name[p - 1] == 'e' then
      var rest := name[p..];
      DigitsValue(rest[..DigitRun(rest)])
    else 0
  }

  /** The order a checkpoint list is sorted in: by name alone as the
      source does, or by epoch first when `byEpoch`. */
  predicate Before(a: string, b: string, prefix: string, byEpoch: bool) {
    if byEpoch && Epoch(a, prefix) != Epoch(b, prefix) then Epoch(a, prefix) < Epoch(b, prefix)
    else LexLess(a, b)
  }

  lemma BeforeOrder(prefix: string, byEpoch: bool)
    ensures forall a, b :: a == b || Before(a, b, prefix, byEpoch) || Before(b, a, prefix, byEpoch)
    ensures forall a, b :: !(Before(a, b, prefix, byEpoch) && Before(b, a, prefix, byEpoch))
    ensures forall a, b, c :: Before(a, b, prefix, byEpoch) && Before(b, c, prefix, byEpoch) ==>
      Before(a, c, prefix, byEpoch)
  {
    forall a, b ensures a == b || Before(a, b, prefix, byEpoch) || Before(b, a, prefix, byEpoch) {
      LexTrichotomy(a, b);
    }
    forall a, b ensures !(Before(a, b, prefix, byEpoch) && Before(b, a, prefix, byEpoch)) {
      LexAsymmetric(a, b);
    }
    forall a, b, c | Before(a, b, prefix, byEpoch) && Before(b, c, prefix, byEpoch)
      ensures Before(a, c, prefix, byEpoch)
    {
      if LexLess(a, b) && LexLess(b, c) {
        LexTransitive(a, b, c);
      }
    }
  }

  /** The name a sort in `Before` order puts last. */
  function Latest(names: seq<string>, prefix: string, byEpoch: bool): (r: string)
    requires names != []
    ensures r in names
    ensures forall k :: 0 <= k < |names| ==> !Before(r, names[k], prefix, byEpoch)
  {
    if |names| == 1 then
      LexAsymmetric(names[0], names[0]);
      names[0]
    else
      var m := Latest(names[1..], prefix, byEpoch);
      if Before(m, names[0], prefix, byEpoch) then
        BeforeOrder(prefix, byEpoch);
        assert forall k :: 1 <= k < |names| ==> names[k] == names[1..][k - 1];
        names[0]
      else m
  }

  /** The file names that start with `prefix` and end with `suffix`. */
  function Matching(files: seq<string>, prefix: string, suffix: string): (r: seq<string>)
    ensures forall f :: f in r <==> f in files && StartsWith(f, prefix) && EndsWith(f, suffix)
  {
    if files == [] then []
    else (if StartsWith(files[0], prefix) && EndsWith(files[0], suffix) then [files[0]] else [])
         + Matching(files[1..], prefix, suffix)
  }

  /** The checkpoint a run keeps: the last matching file name in `Before`
      order, none when no file matches. */
  function PickCheckpoint(files: seq<string>, prefix: string, suffix: string, byEpoch: bool): (r: Option<string>)
    ensures r.Some? ==> r.value in files && StartsWith(r.value, prefix) && EndsWith(r.value, suffix)
  {
    var ms := Matching(files, prefix, suffix);
    if ms == [] then None else Some(Latest(ms, prefix, byEpoch))
  }

  /** No checkpoint is kept exactly when no file matches; otherwise no
      matching file comes after the one kept. */
  lemma PickIsLatest(files: seq<string>, prefix: string, suffix: string, byEpoch: bool)
    ensures PickCheckpoint(files, prefix, suffix, byEpoch).None?
      <==> forall f :: f in files ==> !(StartsWith(f, prefix) && EndsWith(f, suffix))
    ensures PickCheckpoint(files, prefix, suffix, byEpoch).Some? ==>
      forall f :: f in files && StartsWith(f, prefix) && EndsWith(f, suffix) ==>
        !Before(PickCheckpoint(files, prefix, suffix, byEpoch).value, f, prefix, byEpoch)
  {
    var ms := Matching(files, prefix, suffix);
    if ms != [] {
      assert ms[0] in ms;
      assert forall f :: f in ms ==> exists k :: 0 <= k < |ms| && ms[k] == f;
    }
  }

  /** As written, the kept checkpoint is the greatest matching name. */
  lemma NamePickIsGreatest(files: seq<string>, prefix: string, suffix: string)
    requires PickCheckpoint(files, prefix, suffix, false).Some?
    ensures var r := PickCheckpoint(files, prefix, suffix, false).value;
      forall f :: f in files && StartsWith(f, prefix) && EndsWith(f, suffix) ==> f == r || LexLess(f, r)
  {
    var r := PickCheckpoint(files, prefix, suffix, false).value;
    PickIsLatest(files, prefix, suffix, false);
    forall f | f in files && StartsWith(f, prefix) && EndsWith(f, suffix)
      ensures f == r || LexLess(f, r)
    {
      LexTrichotomy(f, r);
    }
  }

  /** Ordered by epoch, the kept checkpoint has the newest epoch. */
  lemma EpochPickIsNewest(files: seq<string>, prefix: string, suffix: string)
    requires PickCheckpoint(files, prefix, suffix, true).Some?
    ensures var r := PickCheckpoint(files, prefix, suffix, true).value;
      forall f :: f in files && StartsWith(f, prefix) && EndsWith(f, suffix) ==>
        Epoch(f, prefix) <= Epoch(r, prefix)
  {
    PickIsLatest(files, prefix, suffix, true);
  }

  /** The epochs of two SoVITS weight files. */
  lemma OlderEpoch()
    ensures Epoch("sovits_model_e9_s90.pth", "sovits_model") == 9
  {
    var name := "sovits_model_e9_s90.pth";
    assert StartsWith(name, "sovits_model") && name[13] == 'e';
    var rest := name[14..];
    assert rest == "9_s90.pth";
    assert DigitRun(rest[1..]) == 0;
    assert rest[..DigitRun(rest)] == "9";
    assert "9"[..0] == [];
  }

  lemma NewerEpoch()
    ensures Epoch("sovits_model_e10_s100.pth", "sovits_model") == 10
  {
    var name := "sovits_model_e10_s100.pth";
    assert StartsWith(name, "sovits_model") && name[13] == 'e';
    var rest := name[14..];
    assert rest == "10_s100.pth";
    assert DigitRun(rest[2..]) == 0;
    assert DigitRun(rest[1..]) == 1;
    assert rest[..DigitRun(rest)] == "10";
    assert "10"[..1] == "1" && "1"[..0] == [];
    assert DigitsValue("10") == 10;
  }

  /** By name, epoch 10 sorts before epoch 9: `1` precedes `9`. */
  lemma ExampleNameOrder()
    ensures LexLess("sovits_model_e10_s100.pth", "sovits_model_e9_s90.pth")
    ensures !LexLess("sovits_model_e9_s90.pth", "sovits_model_e10_s100.pth")
  {
    var common := "sovits_model_e";
    assert "sovits_model_e9_s90.pth" == common + "9_s90.pth";
    assert "sovits_model_e10_s100.pth" == common + "10_s100.pth";
    LexCommonPrefix(common, "10_s100.pth", "9_s90.pth");
    LexAsymmetric("sovits_model_e10_s100.pth", "sovits_model_e9_s90.pth");
  }

  /** Of two matching files, the one sorted last is kept, whatever the
      listing order. */
  lemma PickOfTwo(a: string, b: string, prefix: string, suffix: string, byEpoch: bool)
    requires StartsWith(a, prefix) && EndsWith(a, suffix) && StartsWith(b, prefix) && EndsWith(b, suffix)
    requires Before(a, b, prefix, byEpoch)
    ensures PickCheckpoint([a, b], prefix, suffix, byEpoch) == Some(b)
    ensures PickCheckpoint([b, a], prefix, suffix, byEpoch) == Some(b)
  {
    LexAsymmetric(a, a);
    assert a in [a, b] && a in [b, a];
  }

  /** The name sort is not an epoch sort: with the weights of epochs 9
      and 10 on disk it keeps epoch 9, where the epoch order keeps 10. */
  lemma NameSortKeepsOlderEpoch()
    ensures var files := ["sovits_model_e9_s90.pth", "sovits_model_e10_s100.pth"];
      PickCheckpoint(files, "sovits_model", ".pth", false) == Some("sovits_model_e9_s90.pth")
      && PickCheckpoint(files, "sovits_model", ".pth", true) == Some("sovits_model_e10_s100.pth")
  {
    var older, newer := "sovits_model_e9_s90.pth", "sovits_model_e10_s100.pth";
    assert StartsWith(older, "sovits_model") && EndsWith(older, ".pth");
    assert StartsWith(newer, "sovits_model") && EndsWith(newer, ".pth");
    OlderEpoch();
    NewerEpoch();
    ExampleNameOrder();
    PickOfTwo(older, newer, "sovits_model", ".pth", true);
    PickOfTwo(newer, older, "sovits_model", ".pth", false);
  }

  // ------------------------------------------------------------------
  // A run of the pipeline

  const GptPrefix: string := "gpt_model"
  const GptSuffix: string := ".ckpt"
  const SovitsPrefix: string := "sovits_model"
  const SovitsSuffix: string := ".pth"
  const DefaultGptEpochs: nat := 15
  const DefaultSovitsEpochs: nat := 20

  /** The request read from standard input; absent epoch counts take
      their defaults. */
  datatype Request = Request(voiceId: string, voiceName: string, audioFile: string, workspaceDir: string,
                             gptEpochs: Option<nat>, sovitsEpochs: Option<nat>)

  /** What the file system and the unmodelled work do during a run: the
      uploaded recording, the number of slices, the recognition list and
      the clip durations, the files in `models/` after each training, and
      `raised(k)`, the exception (if any) of the unmodelled work done after
      the k-th stage event: 0 creating the workspace, 1 copying the
      recording, 2 slicing, 3 denoising, 4 recognition, 5 feature
      extraction, 6 GPT training, 7 SoVITS training, 8 copying the GPT
      weights to their final name. */
  datatype Oracles = Oracles(
    audioExists: bool, audioDuration: real, slices: nat,
    asrListPath: string, asrListExists: bool, asrLines: seq<string>, clipDuration: string -> real,
    gptFiles: seq<string>, sovitsFiles: seq<string>,
    raised: nat -> Option<string>)

  /** What a successful run reports, and the GPT checkpoint it copied to
      `gpt_final.ckpt`. */
  datatype Completion = Completion(gptWeights: string, sovitsWeights: string,
                                   referenceAudio: string, referenceText: string, gptCheckpoint: string)

  /** The `current` field of the eight stage events, out of 7. */
  const StageNumbers: seq<nat> := [1, 2, 3, 4, 5, 5, 6, 7]

  function StageMessage(k: nat, req: Request): string
    requires k < 8
  {
    if k == 0 then "Preparing workspace"
    else if k == 1 then "Validating audio"
    else if k == 2 then "Slicing audio into segments"
    else if k == 3 then "Denoising audio segments"
    else if k == 4 then "Transcribing audio (ASR)"
    else if k == 5 then "Extracting features for GPT"
    else if k == 6 then "Training GPT model (" + NatToDecimal(req.gptEpochs.GetOr(DefaultGptEpochs)) + " epochs)"
    else "Training SoVITS model (" + NatToDecimal(req.sovitsEpochs.GetOr(DefaultSovitsEpochs)) + " epochs)"
  }

  function StageData(k: nat): JsonObject
    requires k < 8
  {
    var d := map["current" := TrainingManager.JUnsigned(StageNumbers[k]),
                 "total" := TrainingManager.JUnsigned(TrainingManager.TotalSteps)];
    if k == 5 then d["substage" := TrainingManager.JString("gpt_features")] else d
  }

  /** The k-th stage event. */
  function StageEvent(k: nat, req: Request, now: real): ProgressEvent
    requires k < 8
  {
    EmitProgress("STAGE", StageMessage(k, req), Some(StageData(k)), now)
  }

  /** The first `n` stage events, the k-th printed at clock reading
      `clock(k)`. */
  function Stages(n: nat, req: Request, clock: nat -> real): (es: seq<ProgressEvent>)
    requires n <= 8
    ensures |es| == n
  {
    seq(n, k requires 0 <= k < n => StageEvent(k, req, clock(k)))
  }

  lemma StagesSnoc(n: nat, req: Request, clock: nat -> real)
    requires n < 8
    ensures Stages(n + 1, req, clock) == Stages(n, req, clock) + [StageEvent(n, req, clock(n))]
  {
  }

  /** The event a successful run ends with. */
  function CompletionEvent(c: Completion, req: Request, now: real): ProgressEvent {
    EmitProgress("COMPLETE", "Training completed successfully", Some(CompletionData(c, req)), now)
  }

  /** The data of the completion event: the weights, the reference clip and
      the voice it was trained for. */
  function CompletionData(c: Completion, req: Request): JsonObject {
    map["gpt_weights" := TrainingManager.JString(c.gptWeights),
        "sovits_weights" := TrainingManager.JString(c.sovitsWeights),
        "reference_audio" := TrainingManager.JString(c.referenceAudio),
        "reference_text" := TrainingManager.JString(c.referenceText),
        "voice_id" := TrainingManager.JString(req.voiceId),
        "voice_name" := TrainingManager.JString(req.voiceName)]
  }

  /** The event a failed run ends with, before exiting with status 1. */
  function FailureEvent(e: PipelineError, fmt: real -> string, trace: string, now: real): ProgressEvent {
    EmitProgress("ERROR", Message(e, fmt), Some(map["traceback" := TrainingManager.JString(trace)]), now)
  }

  /** How many stage events precede an error. */
  function Reached(e: PipelineError): (n: nat)
    ensures 1 <= n <= 8
  {
    match e
    case AudioMissing(_) => 2
    case AudioTooShort(_, _) => 2
    case NoSegments => 3
    case AsrListMissing(_) => 5
    case NoReference => 5
    case NoGptCheckpoint => 7
    case NoSovitsCheckpoint => 8
    case Raised(k, _) => if k < 8 then k + 1 else 8
  }

  /** The first failure up to the slicing stage: workspace creation, the
      recording's checks and copy, slicing, and a slicing that produced no
      segment. */
  function EarlyFailure(req: Request, o: Oracles): Option<PipelineError> {
    var validated := ValidateAudioFile(req.audioFile, o.audioExists, o.audioDuration, MinDuration, MaxDuration);
    if o.raised(0).Some? then Some(Raised(0, o.raised(0).value))
    else if validated.Err? then Some(validated.error)
    else if o.raised(1).Some? then Some(Raised(1, o.raised(1).value))
    else if o.raised(2).Some? then Some(Raised(2, o.raised(2).value))
    else if o.slices == 0 then Some(NoSegments)
    else None
  }

  /** The first failure of denoising and recognition. */
  function TranscribeFailure(o: Oracles): Option<PipelineError> {
    if o.raised(3).Some? then Some(Raised(3, o.raised(3).value))
    else if o.raised(4).Some? then Some(Raised(4, o.raised(4).value))
    else None
  }

  /** The first failure of feature extraction and the GPT training. */
  function GptFailure(o: Oracles): Option<PipelineError> {
    if o.raised(5).Some? then Some(Raised(5, o.raised(5).value))
    else if o.raised(6).Some? then Some(Raised(6, o.raised(6).value))
    else None
  }

  /** The GPT checkpoint search fails when the models folder holds no GPT
      checkpoint (whatever the order the search uses). */
  function GptPickFailure(o: Oracles, byEpoch: bool): Option<PipelineError> {
    if PickCheckpoint(o.gptFiles, GptPrefix, GptSuffix, byEpoch).None? then Some(NoGptCheckpoint) else None
  }

  /** The failure of the SoVITS training. */
  function SovitsFailure(o: Oracles): Option<PipelineError> {
    if o.raised(7).Some? then Some(Raised(7, o.raised(7).value)) else None
  }

  /** The first failure after the SoVITS training: no SoVITS checkpoint, or
      the copy of the GPT weights to their final name. */
  function FinalFailure(o: Oracles, byEpoch: bool): Option<PipelineError> {
    if PickCheckpoint(o.sovitsFiles, SovitsPrefix, SovitsSuffix, byEpoch).None? then Some(NoSovitsCheckpoint)
    else if o.raised(8).Some? then Some(Raised(8, o.raised(8).value))
    else None
  }

  /** The completion of a run that nothing stopped: the final GPT weights,
      the GPT and SoVITS checkpoints the search kept and the reference
      clip. */
  function Completed(req: Request, reference: (string, string), gpt: string, sovits: string): Completion {
    var models := JoinPath(req.workspaceDir, "models");
    Completion(JoinPath(models, "gpt_final.ckpt"), JoinPath(models, sovits),
               reference.0, reference.1, JoinPath(models, gpt))
  }

  /** How a run ends: the first failing step in the source's order, or its
      completion. The checkpoints are searched by name, as the pipeline is
      written, when `byEpoch` is false, and by epoch when it is true. */
  function Outcome(req: Request, o: Oracles, byEpoch: bool): Result<Completion, PipelineError> {
    var reference := Reference(o.asrListPath, o.asrListExists, o.asrLines, o.clipDuration);
    if EarlyFailure(req, o).Some? then Err(EarlyFailure(req, o).value)
    else if TranscribeFailure(o).Some? then Err(TranscribeFailure(o).value)
    else if reference.Err? then Err(reference.error)
    else if GptFailure(o).Some? then Err(GptFailure(o).value)
    else if GptPickFailure(o, byEpoch).Some? then Err(GptPickFailure(o, byEpoch).value)
    else if SovitsFailure(o).Some? then Err(SovitsFailure(o).value)
    else if FinalFailure(o, byEpoch).Some? then Err(FinalFailure(o, byEpoch).value)
    else Ok(Completed(req, reference.value,
                      PickCheckpoint(o.gptFiles, GptPrefix, GptSuffix, byEpoch).value,
                      PickCheckpoint(o.sovitsFiles, SovitsPrefix, SovitsSuffix, byEpoch).value))
  }

  /** The checkpoint order decides only which checkpoints a completed run
      keeps: both orders fail at the same step with the same error, and
      complete with the same final GPT weights and reference clip. */
  lemma OrderOnlyChangesCheckpoints(req: Request, o: Oracles)
    ensures Outcome(req, o, false).Err? <==> Outcome(req, o, true).Err?
    ensures Outcome(req, o, false).Err? ==> Outcome(req, o, false).error == Outcome(req, o, true).error
    ensures Outcome(req, o, false).Ok? ==>
      var (c, d) := (Outcome(req, o, false).value, Outcome(req, o, true).value);
      c.gptWeights == d.gptWeights && c.referenceAudio == d.referenceAudio
      && c.referenceText == d.referenceText
  {
    var reference := Reference(o.asrListPath, o.asrListExists, o.asrLines, o.clipDuration);
    if EarlyFailure(req, o).None? && TranscribeFailure(o).None? && reference.Ok? && GptFailure(o).None? {
      assert GptPickFailure(o, false) == GptPickFailure(o, true);
      if GptPickFailure(o, false).None? && SovitsFailure(o).None? {
        assert FinalFailure(o, false) == FinalFailure(o, true);
      }
    }
  }

  /** Stages 1 to 3 of the pipeline: the events printed and the failure, if
      any, that ends the run there. */
  method PrepareAudio(req: Request, o: Oracles, clock: nat -> real) returns (events: seq<ProgressEvent>, failure: Option<PipelineError>)
    ensures failure == EarlyFailure(req, o)
    ensures failure.None? ==> events == Stages(3, req, clock)
    ensures failure.Some? ==> events == Stages(Reached(failure.value), req, clock)
  {
    events := [StageEvent(0, req, clock(0))];
    assert events == Stages(1, req, clock);
    if o.raised(0).Some? {
      failure := Some(Raised(0, o.raised(0).value));
      assert Reached(failure.value) == 1;
      return;
    }
    StagesSnoc(1, req, clock);
    events := events + [StageEvent(1, req, clock(1))];
    var validated := ValidateAudioFile(req.audioFile, o.audioExists, o.audioDuration, MinDuration, MaxDuration);
    if validated.Err? {
      failure := Some(validated.error);
      assert Reached(failure.value) == 2;
      return;
    }
    if o.raised(1).Some? {
      failure := Some(Raised(1, o.raised(1).value));
      assert Reached(failure.value) == 2;
      return;
    }
    StagesSnoc(2, req, clock);
    events := events + [StageEvent(2, req, clock(2))];
    if o.raised(2).Some? {
      failure := Some(Raised(2, o.raised(2).value));
      assert Reached(failure.value) == 3;
      return;
    }
    failure := if o.slices == 0 then Some(NoSegments) else None;
  }

  /** Stages 4 and 5 of the pipeline, after `PrepareAudio` succeeded: the
      events printed so far and the failure, if any, that ends the run
      there. */
  method Transcribe(req: Request, o: Oracles, clock: nat -> real, before: seq<ProgressEvent>)
    returns (events: seq<ProgressEvent>, failure: Option<PipelineError>)
    requires before == Stages(3, req, clock)
    ensures failure == TranscribeFailure(o)
    ensures failure.None? ==> events == Stages(5, req, clock)
    ensures failure.Some? ==> events == Stages(Reached(failure.value), req, clock)
  {
    StagesSnoc(3, req, clock);
    events := before + [StageEvent(3, req, clock(3))];
    if o.raised(3).Some? {
      failure := Some(Raised(3, o.raised(3).value));
      assert Reached(failure.value) == 4;
      return;
    }
    StagesSnoc(4, req, clock);
    events := events + [StageEvent(4, req, clock(4))];
    failure := if o.raised(4).Some? then Some(Raised(4, o.raised(4).value)) else None;
  }

  /** Stage 5b and stage 6 of the pipeline, after the reference clip was
      chosen: the events printed so far and the failure, if any, that ends
      the run there. */
  method TrainGpt(req: Request, o: Oracles, clock: nat -> real, before: seq<ProgressEvent>)
    returns (events: seq<ProgressEvent>, failure: Option<PipelineError>)
    requires before == Stages(5, req, clock)
    ensures failure == GptFailure(o)
    ensures failure.None? ==> events == Stages(7, req, clock)
    ensures failure.Some? ==> events == Stages(Reached(failure.value), req, clock)
  {
    StagesSnoc(5, req, clock);
    events := before + [StageEvent(5, req, clock(5))];
    if o.raised(5).Some? {
      failure := Some(Raised(5, o.raised(5).value));
      assert Reached(failure.value) == 6;
      return;
    }
    StagesSnoc(6, req, clock);
    events := events + [StageEvent(6, req, clock(6))];
    failure := if o.raised(6).Some? then Some(Raised(6, o.raised(6).value)) else None;
  }

  /** The GPT checkpoint search after `TrainGpt` succeeded: the checkpoint
      kept, or the failure when there is none. */
  method KeepGpt(o: Oracles, byEpoch: bool) returns (gpt: string, failure: Option<PipelineError>)
    ensures failure == GptPickFailure(o, byEpoch)
    ensures failure.None? ==> PickCheckpoint(o.gptFiles, GptPrefix, GptSuffix, byEpoch) == Some(gpt)
    ensures failure.Some? ==> Reached(failure.value) == 7
  {
    gpt := "";
    var gptPick := PickCheckpoint(o.gptFiles, GptPrefix, GptSuffix, byEpoch);
    if gptPick.None? {
      failure := Some(NoGptCheckpoint);
      return;
    }
    gpt := gptPick.value;
    failure := None;
  }

  /** Stage 7 of the pipeline, after a GPT checkpoint was found: the events
      printed so far and the failure, if any, that ends the run there. */
  method TrainSovits(req: Request, o: Oracles, clock: nat -> real, before: seq<ProgressEvent>)
    returns (events: seq<ProgressEvent>, failure: Option<PipelineError>)
    requires before == Stages(7, req, clock)
    ensures failure == SovitsFailure(o)
    ensures failure.None? ==> events == Stages(8, req, clock)
    ensures failure.Some? ==> events == Stages(Reached(failure.value), req, clock)
  {
    StagesSnoc(7, req, clock);
    events := before + [StageEvent(7, req, clock(7))];
    failure := if o.raised(7).Some? then Some(Raised(7, o.raised(7).value)) else None;
  }

  /** The SoVITS checkpoint search and the final copy of the GPT weights,
      which print no stage event: the SoVITS checkpoint kept and the
      failure, if any, that ends the run there. */
  method KeepSovits(o: Oracles, byEpoch: bool) returns (sovits: string, failure: Option<PipelineError>)
    ensures failure == FinalFailure(o, byEpoch)
    ensures failure.None? ==> PickCheckpoint(o.sovitsFiles, SovitsPrefix, SovitsSuffix, byEpoch) == Some(sovits)
    ensures failure.Some? ==> Reached(failure.value) == 8
  {
    sovits := "";
    var sovitsPick := PickCheckpoint(o.sovitsFiles, SovitsPrefix, SovitsSuffix, byEpoch);
    if sovitsPick.None? {
      failure := Some(NoSovitsCheckpoint);
      return;
    }
    sovits := sovitsPick.value;
    failure := if o.raised(8).Some? then Some(Raised(8, o.raised(8).value)) else None;
  }

  /** `run_training_pipeline` as far as its printed events go: the stage
      events in order, then one completion (exit status 0) or one error
      (exit status 1). `clock(k)` is the reading when the k-th event is
      printed and `fmt` is Python's `{:.1f}` formatting; `trace` is the
      formatted traceback. With `byEpoch` false the checkpoints are kept by
      name, as the pipeline is written; true is the corrected search.
      Informational events are not modelled. */
  method RunPipeline(req: Request, o: Oracles, clock: nat -> real, fmt: real -> string, trace: string, byEpoch: bool)
    returns (events: seq<ProgressEvent>, exitCode: nat)
    ensures Outcome(req, o, byEpoch).Ok? ==>
      events == Stages(8, req, clock) + [CompletionEvent(Outcome(req, o, byEpoch).value, req, clock(8))]
      && exitCode == 0
    ensures Outcome(req, o, byEpoch).Err? ==>
      events == Stages(Reached(Outcome(req, o, byEpoch).error), req, clock)
        + [FailureEvent(Outcome(req, o, byEpoch).error, fmt, trace, clock(Reached(Outcome(req, o, byEpoch).error)))]
      && exitCode == 1
  {
    var failure;
    exitCode := 1;
    events, failure := PrepareAudio(req, o, clock);
    if failure.Some? {
      events := events + [FailureEvent(failure.value, fmt, trace, clock(Reached(failure.value)))];
      return;
    }
    events, failure := Transcribe(req, o, clock, events);
    if failure.Some? {
      events := events + [FailureEvent(failure.value, fmt, trace, clock(Reached(failure.value)))];
      return;
    }
    var reference := SelectBestReference(o.asrListPath, o.asrListExists, o.asrLines, o.clipDuration);
    if reference.Err? {
      assert Reached(reference.error) == 5;
      events := events + [FailureEvent(reference.error, fmt, trace, clock(5))];
      return;
    }
    events, failure := TrainGpt(req, o, clock, events);
    if failure.Some? {
      events := events + [FailureEvent(failure.value, fmt, trace, clock(Reached(failure.value)))];
      return;
    }
    var gpt, sovits;
    gpt, failure := KeepGpt(o, byEpoch);
    if failure.Some? {
      events := events + [FailureEvent(failure.value, fmt, trace, clock(7))];
      return;
    }
    events, failure := TrainSovits(req, o, clock, events);
    if failure.Some? {
      events := events + [FailureEvent(failure.value, fmt, trace, clock(Reached(failure.value)))];
      return;
    }
    sovits, failure := KeepSovits(o, byEpoch);
    if failure.Some? {
      events := events + [FailureEvent(failure.value, fmt, trace, clock(8))];
      return;
    }
    events := events + [CompletionEvent(Completed(req, reference.value, gpt, sovits), req, clock(8))];
    exitCode := 0;
  }

  // ------------------------------------------------------------------
  // What the training manager makes of a run

  /** The output lines of a run, as the manager parses them. */
  function Lines(events: seq<ProgressEvent>): (lines: seq<TrainingManager.Line>)
    ensures |lines| == |events|
    ensures forall k :: 0 <= k < |events| ==> lines[k] == AsLine(events[k])
  {
    seq(|events|, k requires 0 <= k < |events| => AsLine(events[k]))
  }

  lemma LinesSnoc(events: seq<ProgressEvent>, e: ProgressEvent)
    ensures Lines(events + [e]) == Lines(events) + [AsLine(e)]
  {
    assert forall k :: 0 <= k < |events| ==> (events + [e])[k] == events[k];
  }

  /** The k-th stage event moves the manager to that stage, at step
      `StageNumbers[k]` of 7, and leaves its status alone. */
  lemma StageEventProgress(k: nat, req: Request, now: real, p: TrainingManager.Progress, tick: nat)
    requires k < 8
    ensures var r := TrainingManager.Apply(p, AsLine(StageEvent(k, req, now)), tick);
      r.status == p.status && r.currentStage == StageMessage(k, req)
      && r.currentStep == StageNumbers[k] && r.totalSteps == TrainingManager.TotalSteps
  {
    var d := TrainingManager.Object(StageData(k));
    assert TrainingManager.UnsignedField(d, "current") == Some(StageNumbers[k]);
    assert TrainingManager.UnsignedField(d, "total") == Some(TrainingManager.TotalSteps);
    TrainingManager.StageProgress(p, StageMessage(k, req), Some(d), tick);
  }

  /** After the first n stage events the manager shows the n-th stage, at
      its step out of 7, with the status it had before. */
  lemma {:induction false} StagesProgress(n: nat, req: Request, clock: nat -> real,
                                          p: TrainingManager.Progress, ticks: seq<nat>)
    requires 1 <= n <= 8 && |ticks| == n
    ensures var r := TrainingManager.ApplyAll(p, Lines(Stages(n, req, clock)), ticks);
      r.status == p.status && r.currentStage == StageMessage(n - 1, req)
      && r.currentStep == StageNumbers[n - 1] && r.totalSteps == TrainingManager.TotalSteps
  {
    var k := n - 1;
    StagesSnoc(k, req, clock);
    LinesSnoc(Stages(k, req, clock), StageEvent(k, req, clock(k)));
    assert ticks == ticks[..k] + [ticks[k]];
    TrainingManager.ApplyAllSnoc(p, Lines(Stages(k, req, clock)), ticks[..k], AsLine(StageEvent(k, req, clock(k))), ticks[k]);
    var q := TrainingManager.ApplyAll(p, Lines(Stages(k, req, clock)), ticks[..k]);
    if k == 0 {
      assert q == p;
    } else {
      StagesProgress(k, req, clock, p, ticks[..k]);
    }
    StageEventProgress(k, req, clock(k), q, ticks[k]);
  }

  /** The manager's record after the first n stage events and one more. */
  lemma StagesThen(n: nat, req: Request, clock: nat -> real, last: ProgressEvent,
                   p: TrainingManager.Progress, ticks: seq<nat>)
    requires n <= 8 && |ticks| == n + 1
    ensures TrainingManager.ApplyAll(p, Lines(Stages(n, req, clock) + [last]), ticks)
         == TrainingManager.Apply(TrainingManager.ApplyAll(p, Lines(Stages(n, req, clock)), ticks[..n]), AsLine(last), ticks[n])
  {
    LinesSnoc(Stages(n, req, clock), last);
    assert ticks == ticks[..n] + [ticks[n]];
    TrainingManager.ApplyAllSnoc(p, Lines(Stages(n, req, clock)), ticks[..n], AsLine(last), ticks[n]);
  }

  /** The completion event completes the training with the run's weights
      and reference clip, and leaves the step alone. */
  lemma CompletionEventCompletes(c: Completion, req: Request, now: real, q: TrainingManager.Progress, tick: nat)
    ensures var r := TrainingManager.Apply(q, AsLine(CompletionEvent(c, req, now)), tick);
      r.status == TrainingManager.Completed(c.gptWeights, c.sovitsWeights, c.referenceAudio, c.referenceText)
      && r.currentStep == q.currentStep && r.totalSteps == q.totalSteps
  {
    var d := TrainingManager.Object(CompletionData(c, req));
    CompletionDataFields(c, req);
    assert AsLine(CompletionEvent(c, req, now)) == TrainingManager.Event("COMPLETE", "Training completed successfully", Some(d));
    TrainingManager.CompleteWithData(q, "Training completed successfully", d, tick);
  }

  /** The completion data carries the four paths and the transcript as
      strings under the names the manager reads. */
  lemma CompletionDataFields(c: Completion, req: Request)
    ensures CompletionData(c, req) != map[]
    ensures var d := TrainingManager.Object(CompletionData(c, req));
      TrainingManager.StringField(d, "gpt_weights") == Some(c.gptWeights)
      && TrainingManager.StringField(d, "sovits_weights") == Some(c.sovitsWeights)
      && TrainingManager.StringField(d, "reference_audio") == Some(c.referenceAudio)
      && TrainingManager.StringField(d, "reference_text") == Some(c.referenceText)
  {
    assert "voice_name" in CompletionData(c, req);
  }

  /** The error event fails the training with the run's message, and
      leaves the step alone. */
  lemma FailureEventFails(e: PipelineError, fmt: real -> string, trace: string, now: real,
                          q: TrainingManager.Progress, tick: nat)
    ensures var r := TrainingManager.Apply(q, AsLine(FailureEvent(e, fmt, trace, now)), tick);
      r.status == TrainingManager.Failed(Message(e, fmt))
      && r.currentStep == q.currentStep && r.totalSteps == q.totalSteps
  {
    var line := AsLine(FailureEvent(e, fmt, trace, now));
    TrainingManager.ErrorFails(q, Message(e, fmt), line.data, tick);
  }

  /** A completed run leaves the manager completed with the weights and the
      reference clip the run reported, at step 7 of 7. */
  lemma CompletedRunCompletes(c: Completion, req: Request, clock: nat -> real,
                              p: TrainingManager.Progress, ticks: seq<nat>)
    requires |ticks| == 9
    ensures var r := TrainingManager.ApplyAll(p, Lines(Stages(8, req, clock) + [CompletionEvent(c, req, clock(8))]), ticks);
      r.status == TrainingManager.Completed(c.gptWeights, c.sovitsWeights, c.referenceAudio, c.referenceText)
      && r.currentStep == 7 && r.totalSteps == 7
  {
    StagesThen(8, req, clock, CompletionEvent(c, req, clock(8)), p, ticks);
    StagesProgress(8, req, clock, p, ticks[..8]);
    CompletionEventCompletes(c, req, clock(8), TrainingManager.ApplyAll(p, Lines(Stages(8, req, clock)), ticks[..8]), ticks[8]);
  }

  /** A failed run leaves the manager failed with the run's message, at the
      step of the last stage it reached. */
  lemma FailedRunFails(e: PipelineError, fmt: real -> string, trace: string, req: Request, clock: nat -> real,
                       p: TrainingManager.Progress, ticks: seq<nat>)
    requires |ticks| == Reached(e) + 1
    ensures var n := Reached(e);
      var r := TrainingManager.ApplyAll(p, Lines(Stages(n, req, clock) + [FailureEvent(e, fmt, trace, clock(n))]), ticks);
      r.status == TrainingManager.Failed(Message(e, fmt))
      && r.currentStep == StageNumbers[n - 1] && r.totalSteps == 7
  {
    var n := Reached(e);
    StagesThen(n, req, clock, FailureEvent(e, fmt, trace, clock(n)), p, ticks);
    StagesProgress(n, req, clock, p, ticks[..n]);
    FailureEventFails(e, fmt, trace, clock(n), TrainingManager.ApplyAll(p, Lines(Stages(n, req, clock)), ticks[..n]), ticks[n]);
  }
}
