/** The budget-bounded tile generator of `thief-of-diskspace.py`.

    `WriteDataToFiles` splits a byte budget over `thread_count` threads by
    floor division; each thread runs `GenerateFilesInThread`, which sweeps
    levels 0..4, plans 1 file at level 0 and `level + randint(0, level)` files
    at every other level, and writes a file of `height` chunks of `width`
    random bytes only while the thread's running total stays within its
    budget.  The threads share nothing, so they are run one after another.

    Every random draw (`randint`, `uuid4`, `time.time`) is a nondeterministic
    choice within its range, and every file write may fail (IOError) at any
    point: each `ensures` below holds whatever was drawn and whatever failed. */
module DiskSpace {
  import opened Common
  import opened PyFormat

  newtype byte = x: int | 0 <= x < 256

  const KB: int := 1024
  const MB: int := 1024 * KB
  const GB: int := 1024 * MB

  /** The work of one run of the script (1 GB). */
  const WORKLOAD: int := GB

  /** The file name template, in Python mapping-format syntax. */
  const FILE_NAME: string := "k%(level)d-%(file_id)s.tile"

  datatype Range = Range(min: int, max: int)

  /** `CONFIG`: the thread count and the ranges `randint` draws width and
      height from (width: bytes per chunk, height: chunks per file). */
  datatype Config = Config(threadCount: int, width: Range, height: Range)

  const CONFIG: Config := Config(4, Range(8000, 10000), Range(3000, 4000))

  predicate ValidConfig(c: Config)
  {
    && c.threadCount >= 1
    && 0 <= c.width.min <= c.width.max
    && 0 <= c.height.min <= c.height.max
  }

  // ---------------------------------------------------------------------
  // File identifiers and names

  /** `uuid4().hex` is 128 random bits written as 32 lower-case hex digits. */
  const UUID_SPACE: int := 0x1_0000_0000_0000_0000_0000_0000_0000_0000

  predicate IsHexDigit(c: char) { '0' <= c <= '9' || 'a' <= c <= 'f' }

  predicate IsFileId(s: string)
  {
    |s| == 32 && forall i :: 0 <= i < |s| ==> IsHexDigit(s[i])
  }

  /** The low `n` hexadecimal digits of `u`, most significant first. */
  function HexDigits(u: nat, n: nat): (s: string)
    ensures |s| == n && forall i :: 0 <= i < |s| ==> IsHexDigit(s[i])
  {
    if n == 0 then ""
    else HexDigits(u / 16, n - 1) + ["0123456789abcdef"[u % 16]]
  }

  /** The dictionary that line 100 applies the template to. */
  function NameVars(level: int, fileId: string, width: int, height: int, timestamp: int): map<string, Value>
  {
    map["level" := IntVal(level), "file_id" := StrVal(fileId),
        "width" := IntVal(width), "height" := IntVal(height),
        "timestamp" := IntVal(timestamp)]
  }

  /** With the shipped template a tile is named `k<level>-<file_id>.tile`. */
  lemma DefaultFileName(level: int, fileId: string, width: int, height: int, timestamp: int)
    ensures Render(FILE_NAME, NameVars(level, fileId, width, height, timestamp))
            == Ok("k" + Decimal(level) + ("-" + fileId + ".tile"))
  {
    var vars := NameVars(level, fileId, width, height, timestamp);
    assert "level" in vars && vars["level"] == IntVal(level);
    assert "file_id" in vars && vars["file_id"] == StrVal(fileId);
    FileNameSplit();
    FileNamePieces(FILE_NAME, vars, level, fileId, "k", "level", "-", "file_id", ".tile");
  }

  lemma FileNameSplit()
    ensures FILE_NAME == "k" + ("%(" + "level" + ")" + ['d'] + ("-" + ("%(" + "file_id" + ")" + ['s'] + ".tile")))
  {
  }

  /** The pieces of the template arrive as parameters, so that the solver
      reasons about them symbolically instead of evaluating the literal. */
  lemma FileNamePieces(template: string, vars: map<string, Value>, level: int, fileId: string,
                       p1: string, k1: string, p2: string, k2: string, ext: string)
    requires template == p1 + ("%(" + k1 + ")" + ['d'] + (p2 + ("%(" + k2 + ")" + ['s'] + ext)))
    requires forall i :: 0 <= i < |p1| ==> p1[i] != '%'
    requires forall i :: 0 <= i < |p2| ==> p2[i] != '%'
    requires forall i :: 0 <= i < |ext| ==> ext[i] != '%'
    requires forall i :: 0 <= i < |k1| ==> k1[i] != '(' && k1[i] != ')'
    requires forall i :: 0 <= i < |k2| ==> k2[i] != '(' && k2[i] != ')'
    requires k1 in vars && vars[k1] == IntVal(level)
    requires k2 in vars && vars[k2] == StrVal(fileId)
    ensures Render(template, vars) == Ok(p1 + Decimal(level) + (p2 + fileId + ext))
  {
    RenderTwoPlaceholders(p1, k1, 'd', p2, k2, 's', ext, vars);
  }

  // ---------------------------------------------------------------------
  // Writing one tile

  /** The bytes of a file written as a sequence of chunks. */
  function Concat(chunks: seq<seq<byte>>): seq<byte>
  {
    if chunks == [] then [] else Concat(chunks[..|chunks| - 1]) + chunks[|chunks| - 1]
  }

  lemma {:induction false} ConcatLength(chunks: seq<seq<byte>>, width: int)
    requires forall i :: 0 <= i < |chunks| ==> |chunks[i]| == width
    ensures |Concat(chunks)| == |chunks| * width
  {
    if chunks != [] {
      var n := |chunks| - 1;
      var init := chunks[..n];
      ConcatLength(init, width);
      assert |Concat(chunks)| == |Concat(init)| + |chunks[n]|;
      assert (n + 1) * width == n * width + width;
    }
  }

  /** `bytes([random.randint(0, 255) for _ in range(width)])`. */
  method RandomChunk(width: nat) returns (chunk: seq<byte>)
    ensures |chunk| == width
  {
    chunk := [];
    for k := 0 to width
      invariant |chunk| == k
    {
      var b: int :| 0 <= b <= 255;
      chunk := chunk + [b as byte];
    }
  }

  /** The `with open(file_path, 'wb')` block: `height` writes of a fresh
      `width`-byte chunk.  Opening, any write and the final close may raise
      IOError; `chunks` is what reached the file. */
  method WriteTile(width: nat, height: nat) returns (written: bool, chunks: seq<seq<byte>>)
    ensures |chunks| <= height && forall i :: 0 <= i < |chunks| ==> |chunks[i]| == width
    ensures written ==> |chunks| == height && |Concat(chunks)| == width * height
  {
    chunks := [];
    var openFails: bool :| true;
    if openFails {
      return false, chunks;
    }
    var k := 0;
    while k < height
      invariant 0 <= k <= height && |chunks| == k
      invariant forall i :: 0 <= i < |chunks| ==> |chunks[i]| == width
    {
      var chunk := RandomChunk(width);
      var writeFails: bool :| true;
      if writeFails {
        return false, chunks;
      }
      chunks := chunks + [chunk];
      k := k + 1;
    }
    var closeFails: bool :| true;
    written := !closeFails;
    ConcatLength(chunks, width);
  }

  // ---------------------------------------------------------------------
  // The record of one thread's run

  /** What happened to one planned file. */
  datatype Outcome =
    | OverBudget                  // the check at line 94 failed: `break`
    | TemplateFailed(fileId: string, timestamp: int, error: FormatError)
    // the name rendered and the write was attempted; `written` says whether
    // it went through, `chunks` what reached the file before any IOError
    | Named(fileId: string, timestamp: int, name: string, written: bool, chunks: seq<seq<byte>>)

  /** One planned file: its drawn shape, the thread's `total_volume` when
      the budget was checked, and the outcome. */
  datatype Attempt = Attempt(width: int, height: int, before: int, outcome: Outcome)

  /** One iteration of the outer loop: the level, the drawn file count, the
      thread's total when the level began, and the files attempted. */
  datatype LevelRun = LevelRun(level: nat, count: int, start: int, attempts: seq<Attempt>)

  function Size(a: Attempt): int { a.width * a.height }

  /** What the attempt adds to `total_volume`: its size iff it was written. */
  function Credit(a: Attempt): int
  {
    if a.outcome.Named? && a.outcome.written then Size(a) else 0
  }

  function After(a: Attempt): int { a.before + Credit(a) }

  function RunEnd(r: LevelRun): int
  {
    if r.attempts == [] then r.start else After(r.attempts[|r.attempts| - 1])
  }

  /** Lines 81-86: one file at level 0, `level + randint(0, level)` otherwise. */
  predicate CountOk(level: int, count: int)
  {
    if level == 0 then count == 1 else level <= count <= 2 * level
  }

  /** The attempt's draws lie in their ranges, the budget check decided its
      fate, its name is the template rendered over its variables, and the
      file holds whole chunks of `width` bytes, `height` of them if written. */
  predicate AttemptOk(cfg: Config, template: string, budget: int, level: int, a: Attempt)
  {
    && cfg.width.min <= a.width <= cfg.width.max
    && cfg.height.min <= a.height <= cfg.height.max
    && (a.outcome.OverBudget? <==> a.before + Size(a) > budget)
    && (a.outcome.TemplateFailed? ==>
          && IsFileId(a.outcome.fileId) && a.outcome.timestamp >= 0
          && Render(template, NameVars(level, a.outcome.fileId, a.width, a.height, a.outcome.timestamp))
             == Err(a.outcome.error))
    && (a.outcome.Named? ==>
          && IsFileId(a.outcome.fileId) && a.outcome.timestamp >= 0
          && Render(template, NameVars(level, a.outcome.fileId, a.width, a.height, a.outcome.timestamp))
             == Ok(a.outcome.name)
          && |a.outcome.chunks| <= a.height
          && (forall i :: 0 <= i < |a.outcome.chunks| ==> |a.outcome.chunks[i]| == a.width)
          && (a.outcome.written ==> |a.outcome.chunks| == a.height))
  }

  /** Each attempt starts from the total the previous one left. */
  predicate RunChained(r: LevelRun)
  {
    && (|r.attempts| > 0 ==> r.attempts[0].before == r.start)
    && forall j :: 0 < j < |r.attempts| ==> r.attempts[j].before == After(r.attempts[j - 1])
  }

  /** The inner loop: at most `count` attempts; only a named file lets it
      go on, and it stops short of `count` only on a file it did not name. */
  predicate RunControl(r: LevelRun)
  {
    && CountOk(r.level, r.count)
    && |r.attempts| <= r.count
    && (forall j :: 0 <= j < |r.attempts| - 1 ==> r.attempts[j].outcome.Named?)
    && (|r.attempts| < r.count ==>
          |r.attempts| > 0 && !r.attempts[|r.attempts| - 1].outcome.Named?)
  }

  predicate RunOk(cfg: Config, template: string, budget: int, r: LevelRun)
  {
    && RunControl(r)
    && RunChained(r)
    && forall j :: 0 <= j < |r.attempts| ==> AttemptOk(cfg, template, budget, r.level, r.attempts[j])
  }

  predicate NoTemplateFailure(r: LevelRun)
  {
    forall j :: 0 <= j < |r.attempts| ==> !r.attempts[j].outcome.TemplateFailed?
  }

  /** The levels visited so far, in order, each run correctly, each starting
      from the total the previous one ended with; `total` is the last end. */
  predicate LevelsChained(cfg: Config, template: string, budget: int, runs: seq<LevelRun>, total: int)
  {
    && |runs| <= 5
    && (forall k :: 0 <= k < |runs| ==> runs[k].level == k && RunOk(cfg, template, budget, runs[k]))
    && (|runs| > 0 ==> runs[0].start == 0)
    && (forall k :: 0 < k < |runs| ==> runs[k].start == RunEnd(runs[k - 1]))
    && total == (if runs == [] then 0 else RunEnd(runs[|runs| - 1]))
  }

  /** A whole run of `generate_files_in_thread`.  Going over budget ends only
      the current level, so all five levels are visited, unless rendering a
      name raised: that exception ends the thread on the spot. */
  predicate WorkerRun(cfg: Config, template: string, budget: int, runs: seq<LevelRun>, total: int)
  {
    && LevelsChained(cfg, template, budget, runs, total)
    && (forall k :: 0 <= k < |runs| - 1 ==> NoTemplateFailure(runs[k]))
    && (|runs| == 5 || EndsInTemplateFailure(runs))
  }

  predicate EndsInTemplateFailure(runs: seq<LevelRun>)
  {
    |runs| > 0 &&
    var last := runs[|runs| - 1].attempts;
    |last| > 0 && last[|last| - 1].outcome.TemplateFailed?
  }

  /** Appending an attempt that starts from the run's end keeps it chained. */
  lemma ChainAttempt(r: LevelRun, a: Attempt)
    requires RunChained(r) && a.before == RunEnd(r)
    ensures RunChained(r.(attempts := r.attempts + [a]))
    ensures RunEnd(r.(attempts := r.attempts + [a])) == After(a)
  {
  }

  /** Appending a correct attempt keeps every attempt of the run correct. */
  lemma ExtendAttempts(cfg: Config, template: string, budget: int, r: LevelRun, a: Attempt)
    requires forall j :: 0 <= j < |r.attempts| ==> AttemptOk(cfg, template, budget, r.level, r.attempts[j])
    requires AttemptOk(cfg, template, budget, r.level, a)
    ensures forall j :: 0 <= j < |r.attempts| + 1 ==>
              AttemptOk(cfg, template, budget, r.level, (r.attempts + [a])[j])
  {
  }

  /** Appending a correct run of the next level that starts from the total
      keeps the levels chained. */
  lemma ChainLevel(cfg: Config, template: string, budget: int, runs: seq<LevelRun>, total: int, r: LevelRun)
    requires LevelsChained(cfg, template, budget, runs, total)
    requires |runs| < 5 && r.level == |runs| && r.start == total
    requires RunOk(cfg, template, budget, r)
    ensures LevelsChained(cfg, template, budget, runs + [r], RunEnd(r))
  {
    var runs' := runs + [r];
    forall k | 0 < k < |runs'|
      ensures runs'[k].start == RunEnd(runs'[k - 1])
    {
      if k < |runs| {
        assert runs'[k] == runs[k] && runs'[k - 1] == runs[k - 1];
      }
    }
  }

  // ---------------------------------------------------------------------
  // What a thread's run promises

  /** Every attempt of a thread, level after level. */
  function AllAttempts(runs: seq<LevelRun>): seq<Attempt>
  {
    if runs == [] then [] else AllAttempts(runs[..|runs| - 1]) + runs[|runs| - 1].attempts
  }

  /** The most files levels `0 .. n - 1` can plan: 1 at level 0 and
      `2 * level` at every other level. */
  function MaxPlanned(n: nat): nat
  {
    if n == 0 then 0 else MaxPlanned(n - 1) + (if n == 1 then 1 else 2 * (n - 1))
  }

  lemma {:induction false} AttemptsWithinPlan(runs: seq<LevelRun>)
    requires forall k :: 0 <= k < |runs| ==>
               runs[k].level == k && CountOk(k, runs[k].count) && |runs[k].attempts| <= runs[k].count
    ensures |AllAttempts(runs)| <= MaxPlanned(|runs|)
  {
    if runs != [] {
      var n := |runs| - 1;
      AttemptsWithinPlan(runs[..n]);
      assert CountOk(n, runs[n].count);
    }
  }

  /** Going over budget only ends a level, and the levels are 0..4, so a
      thread plans at most 1 + 2 + 4 + 6 + 8 = 21 files. */
  lemma AtMostTwentyOneFiles(cfg: Config, template: string, budget: int, runs: seq<LevelRun>, total: int)
    requires LevelsChained(cfg, template, budget, runs, total)
    ensures |AllAttempts(runs)| <= MaxPlanned(|runs|) <= 21
  {
    forall k | 0 <= k < |runs|
      ensures runs[k].level == k && CountOk(k, runs[k].count) && |runs[k].attempts| <= runs[k].count
    {
      LevelAt(cfg, template, budget, runs, total, k);
    }
    AttemptsWithinPlan(runs);
    PlanOfFiveLevels(|runs|);
  }

  /** The plans of the first five levels hold 0, 1, 3, 7, 13 and 21 files. */
  lemma PlanOfFiveLevels(n: nat)
    requires n <= 5
    ensures MaxPlanned(n) <= 21
  {
    assert MaxPlanned(0) == 0 && MaxPlanned(1) == 1 && MaxPlanned(2) == 3;
    assert MaxPlanned(3) == 7 && MaxPlanned(4) == 13 && MaxPlanned(5) == 21;
  }

  /** A file drawn within the configured ranges is at least as large as the
      smallest one the ranges allow. */
  lemma SizeAtLeastMin(cfg: Config, a: Attempt)
    requires ValidConfig(cfg)
    requires cfg.width.min <= a.width && cfg.height.min <= a.height
    ensures Size(a) >= cfg.width.min * cfg.height.min
  {
    assert a.width * a.height >= cfg.width.min * a.height;
    assert cfg.width.min * a.height >= cfg.width.min * cfg.height.min;
  }

  /** A level that starts from 0 with a budget below the smallest file
      makes one attempt, fails the budget check, and ends at 0. */
  lemma OverBudgetLevel(cfg: Config, template: string, budget: int, r: LevelRun)
    requires ValidConfig(cfg) && RunOk(cfg, template, budget, r)
    requires r.start == 0 && budget < cfg.width.min * cfg.height.min
    ensures |r.attempts| == 1 && r.attempts[0].outcome.OverBudget? && RunEnd(r) == 0
  {
    assert |r.attempts| >= 1;
    var a := r.attempts[0];
    OverBudgetAttempt(cfg, template, budget, r.level, a);
  }

  lemma OverBudgetAttempt(cfg: Config, template: string, budget: int, level: int, a: Attempt)
    requires ValidConfig(cfg) && AttemptOk(cfg, template, budget, level, a)
    requires a.before == 0 && budget < cfg.width.min * cfg.height.min
    ensures a.outcome.OverBudget?
  {
    SizeAtLeastMin(cfg, a);
  }

  /** What the chain says about level `k` alone. */
  lemma LevelAt(cfg: Config, template: string, budget: int, runs: seq<LevelRun>, total: int, k: nat)
    requires LevelsChained(cfg, template, budget, runs, total) && k < |runs|
    ensures RunOk(cfg, template, budget, runs[k]) && runs[k].level == k
    ensures runs[k].start == if k == 0 then 0 else RunEnd(runs[k - 1])
  {
  }

  /** Dropping the last level of a chain leaves a chain that ends where
      that level started. */
  lemma ChainedPrefix(cfg: Config, template: string, budget: int, runs: seq<LevelRun>, total: int)
    requires LevelsChained(cfg, template, budget, runs, total) && runs != []
    ensures var n := |runs| - 1;
            LevelsChained(cfg, template, budget, runs[..n], if n == 0 then 0 else RunEnd(runs[n - 1]))
  {
    var n := |runs| - 1;
    assert forall k :: 0 <= k < n ==> runs[..n][k] == runs[k];
  }

  lemma {:induction false} NothingOpenedUpTo(cfg: Config, template: string, budget: int,
                                             runs: seq<LevelRun>, total: int, n: nat)
    requires ValidConfig(cfg) && LevelsChained(cfg, template, budget, runs, total)
    requires budget < cfg.width.min * cfg.height.min && n <= |runs|
    ensures forall k :: 0 <= k < n ==>
              |runs[k].attempts| == 1 && runs[k].attempts[0].outcome.OverBudget? && RunEnd(runs[k]) == 0
  {
    if n > 0 {
      NothingOpenedUpTo(cfg, template, budget, runs, total, n - 1);
      LevelAt(cfg, template, budget, runs, total, n - 1);
      if n > 1 {
        assert RunEnd(runs[n - 2]) == 0;
      }
      OverBudgetLevel(cfg, template, budget, runs[n - 1]);
    }
  }

  /** With a budget below the smallest possible file (with positive minimum
      sizes, as in the shipped `CONFIG`, in particular a budget of 0), no file
      is opened: every level makes one attempt, which fails the budget check,
      and the thread's total stays 0. */
  lemma TooSmallBudgetOpensNothing(cfg: Config, template: string, budget: int,
                                   runs: seq<LevelRun>, total: int)
    requires ValidConfig(cfg) && WorkerRun(cfg, template, budget, runs, total)
    requires budget < cfg.width.min * cfg.height.min
    ensures total == 0 && |runs| == 5
    ensures forall k :: 0 <= k < 5 ==>
              |runs[k].attempts| == 1 && runs[k].attempts[0].outcome.OverBudget?
  {
    NothingOpenedUpTo(cfg, template, budget, runs, total, |runs|);
    if |runs| > 0 {
      assert runs[|runs| - 1].attempts[0].outcome.OverBudget?;
    }
  }

  /** The shipped template always renders, so a thread run with it visits
      all five levels. */
  lemma ShippedTemplateVisitsAllLevels(cfg: Config, budget: int, runs: seq<LevelRun>, total: int)
    requires WorkerRun(cfg, FILE_NAME, budget, runs, total)
    ensures |runs| == 5
  {
    if |runs| != 5 {
      var k := |runs| - 1;
      LevelAt(cfg, FILE_NAME, budget, runs, total, k);
      var a := runs[k].attempts[|runs[k].attempts| - 1];
      assert AttemptOk(cfg, FILE_NAME, budget, k, a);
      DefaultFileName(k, a.outcome.fileId, a.width, a.height, a.outcome.timestamp);
      assert false;
    }
  }

  /** The bytes the attempts wrote: the sum of their credits. */
  function WrittenBytes(attempts: seq<Attempt>): int
  {
    if attempts == [] then 0
    else WrittenBytes(attempts[..|attempts| - 1]) + Credit(attempts[|attempts| - 1])
  }

  lemma {:induction false} WrittenBytesAppend(xs: seq<Attempt>, ys: seq<Attempt>)
    ensures WrittenBytes(xs + ys) == WrittenBytes(xs) + WrittenBytes(ys)
    decreases |ys|
  {
    if ys == [] {
      assert xs + ys == xs;
    } else {
      var n := |ys| - 1;
      assert (xs + ys)[..|xs + ys| - 1] == xs + ys[..n];
      assert (xs + ys)[|xs + ys| - 1] == ys[n];
      WrittenBytesAppend(xs, ys[..n]);
    }
  }

  /** A level ends at its start plus exactly the sizes of the files it
      wrote; a failed write adds nothing. */
  lemma {:induction false} RunEndIsWritten(r: LevelRun)
    requires RunChained(r)
    ensures RunEnd(r) == r.start + WrittenBytes(r.attempts)
    decreases |r.attempts|
  {
    if r.attempts != [] {
      var n := |r.attempts| - 1;
      var r' := r.(attempts := r.attempts[..n]);
      assert RunChained(r');
      RunEndIsWritten(r');
    }
  }

  /** `total_volume` is exactly the number of bytes of the files written so
      far, over all levels. */
  lemma {:induction false} TotalIsBytesWritten(cfg: Config, template: string, budget: int,
                                               runs: seq<LevelRun>, total: int)
    requires LevelsChained(cfg, template, budget, runs, total)
    ensures total == WrittenBytes(AllAttempts(runs))
    decreases |runs|
  {
    if runs != [] {
      var n := |runs| - 1;
      var init := runs[..n];
      var prev := if n == 0 then 0 else RunEnd(runs[n - 1]);
      LevelAt(cfg, template, budget, runs, total, n);
      ChainedPrefix(cfg, template, budget, runs, total);
      TotalIsBytesWritten(cfg, template, budget, init, prev);
      RunEndIsWritten(runs[n]);
      WrittenBytesAppend(AllAttempts(init), runs[n].attempts);
    }
  }

  /** Each attempt leaves the total at least where it was, and, if it was
      named, within the budget. */
  lemma AttemptKeepsBound(cfg: Config, template: string, budget: int, level: int, a: Attempt)
    requires ValidConfig(cfg) && AttemptOk(cfg, template, budget, level, a)
    requires 0 <= a.before && (a.before <= budget || a.before == 0)
    ensures a.before <= After(a)
    ensures 0 <= After(a) && (After(a) <= budget || After(a) == 0)
  {
    assert Size(a) >= 0 by {
      SizeAtLeastMin(cfg, a);
    }
  }

  lemma {:induction false} RunKeepsBound(cfg: Config, template: string, budget: int, r: LevelRun, n: nat)
    requires ValidConfig(cfg) && RunOk(cfg, template, budget, r) && n <= |r.attempts|
    requires 0 <= r.start && (r.start <= budget || r.start == 0)
    ensures var e := RunEnd(r.(attempts := r.attempts[..n]));
            r.start <= e && (e <= budget || e == 0)
  {
    if n > 0 {
      RunKeepsBound(cfg, template, budget, r, n - 1);
      var a := r.attempts[n - 1];
      assert AttemptOk(cfg, template, budget, r.level, a);
      assert r.attempts[..n][..n - 1] == r.attempts[..n - 1];
      AttemptKeepsBound(cfg, template, budget, r.level, a);
    }
  }

  /** The loop invariant of `generate_files_in_thread`: the total never
      decreases from one level to the next, never goes below 0, and stays
      within the budget (a negative budget opens nothing and keeps it 0). */
  lemma {:induction false} TotalWithinBudget(cfg: Config, template: string, budget: int,
                                             runs: seq<LevelRun>, total: int)
    requires ValidConfig(cfg) && LevelsChained(cfg, template, budget, runs, total)
    ensures 0 <= total && (total <= budget || total == 0)
    ensures forall k :: 0 <= k < |runs| ==> runs[k].start <= RunEnd(runs[k])
    decreases |runs|
  {
    if runs != [] {
      var n := |runs| - 1;
      var prev := if n == 0 then 0 else RunEnd(runs[n - 1]);
      LevelAt(cfg, template, budget, runs, total, n);
      ChainedPrefix(cfg, template, budget, runs, total);
      TotalWithinBudget(cfg, template, budget, runs[..n], prev);
      RunKeepsBound(cfg, template, budget, runs[n], |runs[n].attempts|);
      assert runs[n].attempts[..|runs[n].attempts|] == runs[n].attempts;
    }
  }

  // ---------------------------------------------------------------------
  // The thread body

  /** `generate_files_in_thread(output_dir, volume_per_thread)`; the output
      directory only prefixes the names and is left out. */
  method GenerateFilesInThread(cfg: Config, template: string, volumePerThread: int)
    returns (runs: seq<LevelRun>, totalVolume: int)
    requires ValidConfig(cfg)
    ensures WorkerRun(cfg, template, volumePerThread, runs, totalVolume)
    ensures 0 <= totalVolume && (totalVolume <= volumePerThread || totalVolume == 0)
  {
    runs := [];
    totalVolume := 0;
    for level := 0 to 5
      invariant |runs| == level
      invariant LevelsChained(cfg, template, volumePerThread, runs, totalVolume)
      invariant forall k :: 0 <= k < |runs| ==> NoTemplateFailure(runs[k])
      invariant 0 <= totalVolume && (totalVolume <= volumePerThread || totalVolume == 0)
    {
      var count: int;
      if level == 0 {
        count := 1;
      } else {
        var extra :| 0 <= extra <= level;
        count := level + extra;
      }
      var run, total := GenerateLevel(cfg, template, volumePerThread, level, count, totalVolume);
      ChainLevel(cfg, template, volumePerThread, runs, totalVolume, run);
      runs := runs + [run];
      totalVolume := total;
      if !NoTemplateFailure(run) {
        // the exception propagates out of the thread body
        return;
      }
    }
  }

  /** One pass of the inner loop: draw the shape, check it against the
      budget, name the file and write it.  `totalVolume` is the thread total
      at the check. */
  method PlanAndWriteFile(cfg: Config, template: string, volumePerThread: int, level: nat, totalVolume: int)
    returns (a: Attempt)
    requires ValidConfig(cfg)
    ensures a.before == totalVolume
    ensures AttemptOk(cfg, template, volumePerThread, level, a)
  {
    var width :| cfg.width.min <= width <= cfg.width.max;
    var height :| cfg.height.min <= height <= cfg.height.max;
    var fileSize := width * height;
    if totalVolume + fileSize > volumePerThread {
      return Attempt(width, height, totalVolume, OverBudget);
    }
    var u :| 0 <= u < UUID_SPACE;
    var fileId := HexDigits(u, 32);
    var timestamp :| timestamp >= 0;
    var filename := Render(template, NameVars(level, fileId, width, height, timestamp));
    if filename.Err? {
      return Attempt(width, height, totalVolume, TemplateFailed(fileId, timestamp, filename.error));
    }
    var written, chunks := WriteTile(width, height);
    a := Attempt(width, height, totalVolume, Named(fileId, timestamp, filename.value, written, chunks));
  }

  /** The inner loop's invariant after `|run.attempts|` passes: every file
      so far was named and planned correctly, the totals are chained, and
      `totalVolume` is where the last one left the total, within budget. */
  predicate LevelProgress(cfg: Config, template: string, budget: int, run: LevelRun, totalVolume: int)
  {
    && |run.attempts| <= run.count
    && (forall j :: 0 <= j < |run.attempts| ==> run.attempts[j].outcome.Named?)
    && (forall j :: 0 <= j < |run.attempts| ==> AttemptOk(cfg, template, budget, run.level, run.attempts[j]))
    && RunChained(run) && totalVolume == RunEnd(run)
    && 0 <= totalVolume && (totalVolume <= budget || totalVolume == 0)
  }

  /** One pass of the inner loop: a named file keeps the loop going with
      the invariant; any other outcome ends the level with a correct run. */
  lemma LevelStep(cfg: Config, template: string, budget: int, run: LevelRun, totalVolume: int, a: Attempt)
    requires ValidConfig(cfg) && CountOk(run.level, run.count)
    requires LevelProgress(cfg, template, budget, run, totalVolume) && |run.attempts| < run.count
    requires a.before == totalVolume && AttemptOk(cfg, template, budget, run.level, a)
    ensures var run' := run.(attempts := run.attempts + [a]);
            a.outcome.Named? ==> LevelProgress(cfg, template, budget, run', After(a))
    ensures var run' := run.(attempts := run.attempts + [a]);
            !a.outcome.Named? ==>
              && RunOk(cfg, template, budget, run') && RunEnd(run') == totalVolume
              && (!NoTemplateFailure(run') ==> a.outcome.TemplateFailed?)
  {
    var run' := run.(attempts := run.attempts + [a]);
    ChainAttempt(run, a);
    ExtendAttempts(cfg, template, budget, run, a);
    AttemptKeepsBound(cfg, template, budget, run.level, a);
    assert run'.attempts[|run.attempts|] == a;
    assert forall j :: 0 <= j < |run.attempts| ==> run'.attempts[j] == run.attempts[j];
  }

  /** A level whose `count` files were all named is a correct run. */
  lemma LevelDone(cfg: Config, template: string, budget: int, run: LevelRun, totalVolume: int)
    requires CountOk(run.level, run.count)
    requires LevelProgress(cfg, template, budget, run, totalVolume) && |run.attempts| == run.count
    ensures RunOk(cfg, template, budget, run) && NoTemplateFailure(run)
  {
  }

  /** The inner loop of one level: plan up to `count` files, starting from
      the thread total `start`. */
  method GenerateLevel(cfg: Config, template: string, volumePerThread: int, level: nat, count: int, start: int)
    returns (run: LevelRun, totalVolume: int)
    requires ValidConfig(cfg) && CountOk(level, count)
    requires 0 <= start && (start <= volumePerThread || start == 0)
    ensures run.level == level && run.count == count && run.start == start
    ensures RunOk(cfg, template, volumePerThread, run)
    ensures totalVolume == RunEnd(run)
    ensures !NoTemplateFailure(run) ==> run.attempts[|run.attempts| - 1].outcome.TemplateFailed?
    ensures 0 <= totalVolume && (totalVolume <= volumePerThread || totalVolume == 0)
  {
    run := LevelRun(level, count, start, []);
    totalVolume := start;
    var i := 0;
    while i < count
      invariant 0 <= i <= count && |run.attempts| == i
      invariant run.level == level && run.count == count && run.start == start
      invariant LevelProgress(cfg, template, volumePerThread, run, totalVolume)
    {
      var a := PlanAndWriteFile(cfg, template, volumePerThread, level, totalVolume);
      LevelStep(cfg, template, volumePerThread, run, totalVolume, a);
      run := run.(attempts := run.attempts + [a]);
      if !a.outcome.Named? {
        // `break` past the budget, or the exception of line 100
        return;
      }
      if a.outcome.written {
        totalVolume := totalVolume + a.width * a.height;
      }
      i := i + 1;
    }
    LevelDone(cfg, template, volumePerThread, run, totalVolume);
  }

  // ---------------------------------------------------------------------
  // The orchestrator

  /** `total_volume_limit // thread_count`: the largest budget that every
      thread can be given without the sum exceeding the limit. */
  function VolumePerThread(limit: int, threadCount: int): (v: int)
    requires threadCount >= 1
    ensures threadCount * v <= limit < threadCount * v + threadCount
  {
    limit / threadCount
  }

  /** The split is exact precisely when the thread count divides the limit;
      otherwise `limit % threadCount` bytes are never handed out. */
  lemma UnallocatedRemainder(limit: int, threadCount: int)
    requires threadCount >= 1
    ensures limit - threadCount * VolumePerThread(limit, threadCount) == limit % threadCount
    ensures threadCount * VolumePerThread(limit, threadCount) == limit <==> limit % threadCount == 0
  {
    var v := VolumePerThread(limit, threadCount);
    assert limit == threadCount * (limit / threadCount) + limit % threadCount;
  }

  /** The script's own run, `write_data_to_files(WORKLOAD, OUTPUT_DIR)`:
      the shipped configuration is valid and 1 GB splits exactly into four
      budgets of 256 MB. */
  lemma DefaultRunSplitsExactly()
    ensures ValidConfig(CONFIG)
    ensures VolumePerThread(WORKLOAD, CONFIG.threadCount) == 256 * MB
    ensures CONFIG.threadCount * VolumePerThread(WORKLOAD, CONFIG.threadCount) == WORKLOAD
  {
    UnallocatedRemainder(WORKLOAD, CONFIG.threadCount);
  }

  datatype ThreadResult = ThreadResult(runs: seq<LevelRun>, total: int)

  function TotalWritten(threads: seq<ThreadResult>): int
  {
    if threads == [] then 0 else TotalWritten(threads[..|threads| - 1]) + threads[|threads| - 1].total
  }

  /** Appending one thread's result adds its total, and keeps the running
      total within `(t + 1)` budgets when it was within `t` of them. */
  lemma AddThread(threads: seq<ThreadResult>, th: ThreadResult, t: nat, budget: int)
    requires 0 <= TotalWritten(threads) && 0 <= th.total
    requires budget >= 0 ==> TotalWritten(threads) <= t * budget && th.total <= budget
    requires budget < 0 ==> TotalWritten(threads) == 0 && th.total == 0
    ensures TotalWritten(threads + [th]) == TotalWritten(threads) + th.total
    ensures 0 <= TotalWritten(threads + [th])
    ensures budget >= 0 ==> TotalWritten(threads + [th]) <= (t + 1) * budget
    ensures budget < 0 ==> TotalWritten(threads + [th]) == 0
  {
    assert (threads + [th])[..|threads|] == threads;
    assert (t + 1) * budget == t * budget + budget;
  }

  /** `write_data_to_files(total_volume_limit, output_dir)`: one budget per
      thread, and together the threads never write more than the limit. */
  method WriteDataToFiles(cfg: Config, template: string, totalVolumeLimit: int)
    returns (volumePerThread: int, threads: seq<ThreadResult>)
    requires ValidConfig(cfg)
    ensures volumePerThread == VolumePerThread(totalVolumeLimit, cfg.threadCount)
    ensures |threads| == cfg.threadCount
    ensures forall t :: 0 <= t < |threads| ==>
              WorkerRun(cfg, template, volumePerThread, threads[t].runs, threads[t].total)
    ensures 0 <= TotalWritten(threads)
    ensures totalVolumeLimit >= 0 ==> TotalWritten(threads) <= totalVolumeLimit
    ensures totalVolumeLimit < 0 ==> TotalWritten(threads) == 0
  {
    volumePerThread := VolumePerThread(totalVolumeLimit, cfg.threadCount);
    threads := [];
    for t := 0 to cfg.threadCount
      invariant |threads| == t
      invariant forall s :: 0 <= s < t ==>
                  WorkerRun(cfg, template, volumePerThread, threads[s].runs, threads[s].total)
      invariant 0 <= TotalWritten(threads)
      invariant volumePerThread >= 0 ==> TotalWritten(threads) <= t * volumePerThread
      invariant volumePerThread < 0 ==> TotalWritten(threads) == 0
    {
      var runs, total := GenerateFilesInThread(cfg, template, volumePerThread);
      AddThread(threads, ThreadResult(runs, total), t, volumePerThread);
      threads := threads + [ThreadResult(runs, total)];
    }
  }
}
