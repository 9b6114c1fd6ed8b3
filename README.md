# Disk, CPU and memory "thief" scripts and a line-by-line text inputter, in Dafny

The repository holds three stand-alone Python scripts. This project models
the sequential core of each one and proves what that core promises.

- **`thief-of-diskspace.py`**: a budget-bounded tile generator.
  - `write_data_to_files` gives each of `thread_count` threads the budget
    `total_volume_limit // thread_count`.
  - Each thread runs `generate_files_in_thread`. It sweeps levels 0..4 and
    plans one file at level 0 and `level + randint(0, level)` files at every
    other level.
  - For each file it draws a width and a height and skips the rest of the
    level once a file would overflow the thread's budget.
  - Otherwise it names the file by rendering `FILE_NAME` with Python's
    mapping `%` formatting and writes `height` chunks of `width` random bytes.
  - `total_volume` grows only after a write that succeeded.

  Modules `DiskSpace` (`disk_space.dfy`) and `PyFormat` (`py_format.dfy`,
  the `%(key)d` / `%(key)s` / `%%` subset of `%` formatting).
- **`thief-of-cpumem.py`**: `split_mem_randomly`, which cuts a memory figure
  into one share per worker process, and the integer draws of one round of
  `main`, which hands share `i` to process `i`. Module `CpuMem`
  (`cpu_mem.dfy`).
- **`rows_input.py`**: the `TextLineInputter` window, which treats its text
  area as a queue of lines. It takes off the first line, optionally strips
  it, and reports it in a status line and a "last input" label, cut to 30
  and 50 characters. The toggles copy checkbox values into flags. Module
  `RowsInput` (`rows_input.dfy`); the window is a `class` whose fields the
  methods update, specified by functions on an `Inputter` value.

`Common` (`common.dfy`) holds `Option`, `Result` and Python's `sum`.

Random draws (`randint`, `random.uniform`, `uuid4`, `time.time`) are
nondeterministic choices within the ranges the scripts give them. Any file
write may fail with `IOError`, at open, at any chunk, or at close. Every
`ensures` holds whatever is drawn and whatever fails.

## Model

| member | source | states |
|---|---|---|
| PyFormat.NatDigits | original/python/thief-of-diskspace.py:100-104 | `%d` of a natural number is a non-empty string of decimal digits with no leading zero |
| PyFormat.Decimal | original/python/thief-of-diskspace.py:100-104 | `%d` of an integer: a minus sign for a negative number, then its digits (`NatDigits`); `DecimalRoundTrip` proves the text reads back as the number |
| PyFormat.DecimalRoundTrip | original/python/thief-of-diskspace.py:100-104 | the decimal text `%d` produces for any integer, sign included, parses back to that integer |
| Common.IndexOf | original/python/rows_input.py:173 | like `str.find`: the result is the first position at or after `from` holding the character, or none exists |
| PyFormat.KeyClose | original/python/thief-of-diskspace.py:100-104 | the `)` that ends a `%(key)` key, found as Python does by counting nested parentheses from depth 1; when found it is a `)` at or after the start |
| PyFormat.Convert | original/python/thief-of-diskspace.py:100-104 | `d` of an integer is its `Decimal`, `s` of a string is the string, `d` of a string is `TypeError`, other conversions are `Unsupported`; used through `RenderPlaceholder` and `MissingKeyFails` |
| PyFormat.Render | original/python/thief-of-diskspace.py:100-104 | `FILE_NAME % {...}` restricted to `%(key)d`, `%(key)s` and `%%`; its properties are the `Render*`, `Escape*`, `MissingKeyFails` and `*Key*` lemmas of this table |
| PyFormat.RenderLiteralPrefix | original/python/thief-of-diskspace.py:100-104 | template text without `%` is copied to the name unchanged, in front of whatever the rest renders to |
| PyFormat.RenderPlaceholder | original/python/thief-of-diskspace.py:13 | a `%(key)d` or `%(key)s` placeholder whose key is in the mapping and has no parentheses is replaced by that value's text |
| PyFormat.RenderSegment | original/python/thief-of-diskspace.py:100-104 | literal text followed by a placeholder whose key (without parentheses) is in the mapping renders to the text, the value's text, then whatever the rest renders to |
| PyFormat.RenderTwoPlaceholders | original/python/thief-of-diskspace.py:100-104 | a template of text, placeholder, text, placeholder, text (keys without parentheses) renders to the texts with both values substituted in place |
| PyFormat.EscapeRoundTrip | original/python/thief-of-diskspace.py:14 | doubling every `%` of a text and rendering the result gives back the text, whatever the mapping holds |
| PyFormat.RenderEscapedPercent | original/python/thief-of-diskspace.py:14 | `%%` renders as one literal `%` and the text after it is not read as a placeholder |
| PyFormat.EscapedPlaceholderIsLiteral | original/python/thief-of-diskspace.py:14 | `%%(level)d` renders as the literal text `%(level)d`, not as `%` followed by the level |
| PyFormat.MissingKeyFails | original/python/thief-of-diskspace.py:100-104 | a placeholder whose key has no parentheses and is not in the mapping raises `KeyError` for that key |
| PyFormat.NestedKeyIsRead | original/python/thief-of-diskspace.py:100-104 | a key with balanced inner parentheses, `%(a(b)c)`, is read whole: `a(b)c` is looked up and its value substituted, or `KeyError` for it |
| PyFormat.UnbalancedKeyIsIncomplete | original/python/thief-of-diskspace.py:100-104 | a key whose inner `(` leaves no closing `)` for the outer one raises `ValueError("incomplete format key")`, whatever the mapping |
| PyFormat.EmptyNestedKeyIsIncomplete | original/python/thief-of-diskspace.py:100-104 | `"%(()d" % {"(": 1}` raises `ValueError("incomplete format key")`, not a lookup of `(` |
| DiskSpace.HexDigits | original/python/thief-of-diskspace.py:97 | a file id is exactly 32 lower-case hexadecimal digits, as `uuid4().hex` gives |
| DiskSpace.NameVars | original/python/thief-of-diskspace.py:100-104 | the mapping passed to `%`: the keys `level`, `file_id`, `width`, `height` and `timestamp` with the attempt's values; used through `DefaultFileName` and `PlanAndWriteFile` |
| DiskSpace.DefaultFileName | original/python/thief-of-diskspace.py:48 | the shipped template names a tile `k<level in decimal>-<file id>.tile`, whatever width, height and timestamp are |
| DiskSpace.Concat | original/python/thief-of-diskspace.py:109-112 | the file's bytes are its chunks in write order; `ConcatLength` gives their number |
| DiskSpace.ConcatLength | original/python/thief-of-diskspace.py:109-112 | `height` chunks of `width` bytes make a file of `width * height` bytes |
| DiskSpace.RandomChunk | original/python/thief-of-diskspace.py:111 | a chunk holds exactly `width` bytes, each in 0..255 |
| DiskSpace.WriteTile | original/python/thief-of-diskspace.py:107-116 | a file holds whole `width`-byte chunks, at most `height` of them, and exactly `width * height` bytes when the write succeeded |
| DiskSpace.PlanAndWriteFile | original/python/thief-of-diskspace.py:88-116 | width and height lie in their configured ranges; the file is skipped iff `total + width * height > budget`; otherwise its name is the rendered template or the rendering error, and its contents are as for `WriteTile` |
| DiskSpace.GenerateLevel | original/python/thief-of-diskspace.py:87-116 | one level makes at most `count` attempts, every one but the last named (its write attempted), fewer only when the last was skipped or failed to render; the total ends at the last attempt's end and stays within the budget |
| DiskSpace.GenerateFilesInThread | original/python/thief-of-diskspace.py:65-116 | the thread visits levels 0..4 in order with counts 1 and `[k, 2k]`, chained totals, and stops early only when a name fails to render; the total is between 0 and the budget (0 for a negative budget) |
| DiskSpace.AtMostTwentyOneFiles | original/python/thief-of-diskspace.py:80-95 | going over budget ends only a level, so a thread plans at most 1 + 2 + 4 + 6 + 8 = 21 files |
| DiskSpace.SizeAtLeastMin | original/python/thief-of-diskspace.py:73-76 | a drawn file is at least `width_min * height_min` bytes |
| DiskSpace.OverBudgetAttempt | original/python/thief-of-diskspace.py:89-95 | from a total of 0, a file is always skipped when the budget is below the smallest possible file |
| DiskSpace.OverBudgetLevel | original/python/thief-of-diskspace.py:87-95 | such a level makes one attempt, skips it, and leaves the total at 0 |
| DiskSpace.TooSmallBudgetOpensNothing | original/python/thief-of-diskspace.py:78-95 | with positive minimum sizes, as in the shipped `CONFIG`, and a budget below the smallest file (a budget of 0 included), all five levels run, each skips its one attempt, and the thread's total is 0 |
| DiskSpace.ShippedTemplateVisitsAllLevels | original/python/thief-of-diskspace.py:80-104 | with the shipped `FILE_NAME`, which always renders, a thread runs all five levels |
| DiskSpace.RunEndIsWritten | original/python/thief-of-diskspace.py:107-116 | a level's total grows by exactly the sizes of its files whose write succeeded; a failed write adds nothing |
| DiskSpace.TotalIsBytesWritten | original/python/thief-of-diskspace.py:78-116 | `total_volume` equals the bytes of all files written successfully so far, over all levels |
| DiskSpace.AttemptKeepsBound | original/python/thief-of-diskspace.py:94-114 | one attempt never lowers the total and keeps it within the budget |
| DiskSpace.RunKeepsBound | original/python/thief-of-diskspace.py:87-116 | every prefix of a level's attempts keeps the total between its start and the budget |
| DiskSpace.TotalWithinBudget | original/python/thief-of-diskspace.py:78-116 | the loop invariant: each level ends at or above its start, and the total is at least 0 and at most the budget (0 if the budget is negative) |
| DiskSpace.VolumePerThread | original/python/thief-of-diskspace.py:130 | the per-thread budget is the largest `v` with `thread_count * v <= total_volume_limit` |
| DiskSpace.UnallocatedRemainder | original/python/thief-of-diskspace.py:127-130 | exactly `limit % thread_count` bytes are never handed out, and the split is exact iff the thread count divides the limit |
| DiskSpace.DefaultRunSplitsExactly | original/python/thief-of-diskspace.py:148 | the shipped `CONFIG` is valid and `WORKLOAD` (1 GB) splits exactly into four budgets of 256 MB |
| DiskSpace.AddThread | original/python/thief-of-diskspace.py:133-144 | adding one thread's total keeps the grand total within one more budget |
| DiskSpace.WriteDataToFiles | original/python/thief-of-diskspace.py:119-144 | `thread_count` threads, each a complete run with the floor-divided budget, write at most `total_volume_limit` bytes together, and nothing for a negative limit |
| Common.Sum | original/python/thief-of-cpumem.py:133-137 | Python's `sum` of a list; `SumAppend` gives the sum after one more part, which the split's invariants use |
| CpuMem.Lo | original/python/thief-of-cpumem.py:124-126 | the lower bound `max(1, avg - half_avg)` of every draw is at least 1 |
| CpuMem.Hi | original/python/thief-of-cpumem.py:133 | the upper bound of a draw is at most the cap that leaves one unit for each part still to come, and at most `avg + half_avg` |
| CpuMem.DrawParts | original/python/thief-of-cpumem.py:129-134 | the loop draws `num - 1` parts, each between the bounds computed from the parts before it |
| CpuMem.CloseSplit | original/python/thief-of-cpumem.py:137 | appending the remainder to the drawn parts gives a possible outcome of the split |
| CpuMem.SplitOutcomeShape | original/python/thief-of-cpumem.py:117-138 | any outcome is empty for a non-positive input; otherwise it has exactly `num` parts summing to `value`, and `[value]` for one part |
| CpuMem.SplitMemRandomly | original/python/thief-of-cpumem.py:118-138 | the split as written: empty for `value <= 0` or `num <= 0`, else `num` parts in their draw ranges summing exactly to `value`, `[value]` when `num == 1`; the sign of the last part is not guarded |
| CpuMem.AsWrittenNegativeShare | original/python/thief-of-cpumem.py:133-137 | the script can split 70 MB over 7 processes as `[14, 14, 14, 14, 11, 4, -1]` |
| CpuMem.CorrectedRulesOutNegativeShare | original/python/thief-of-cpumem.py:133 | the corrected draw cannot produce that list |
| CpuMem.SplitMemCorrected | original/python/thief-of-cpumem.py:118-138 | the same contract as the script, and every share is at least 1 whenever `value >= num` |
| CpuMem.CorrectedOutcomePositive | original/python/thief-of-cpumem.py:133-137 | every part of a corrected outcome is at least 1 when there is at least one unit per part |
| CpuMem.CorrectedDrawsAllowed | original/python/thief-of-cpumem.py:133 | every corrected draw is also a draw the script can make |
| CpuMem.MainRangeAgrees | original/python/thief-of-cpumem.py:148-162 | for 1 to 4 processes and at least 1 MB each, the script and the corrected split allow exactly the same lists |
| CpuMem.MainRound | original/python/thief-of-cpumem.py:141-165 | runtime in 5..60, sleep in 0.01..0.70 s, 1..4 cores and 1000..5000 MB; one process per core, each with the shared runtime and sleep, and share `i` of the split as written as its memory; the shares sum to the memory drawn, the list is also one the corrected split allows, and so every share is at least 1 MB |
| RowsInput.RStripNewlines | original/python/rows_input.py:167 | the result is a prefix of the text that does not end in a newline |
| RowsInput.RStripDropsNewlines | original/python/rows_input.py:167 | everything `rstrip("\n")` removes is a newline |
| RowsInput.RStripTkNewline | original/python/rows_input.py:167 | the newline Tk adds after the text makes no difference once trailing newlines are stripped |
| RowsInput.LeadingSpaces | original/python/rows_input.py:183 | counts the maximal run of whitespace at the start of the text |
| RowsInput.TrailingSpaces | original/python/rows_input.py:183 | counts the maximal run of whitespace at the end of the text |
| RowsInput.Strip | original/python/rows_input.py:183 | `str.strip()` for whitespace; `StripSlice` and `StripIdempotent` state what it keeps and drops |
| RowsInput.StripSlice | original/python/rows_input.py:183 | `strip()` keeps a slice of the text that neither starts nor ends with whitespace, and everything it drops is whitespace |
| RowsInput.StripIdempotent | original/python/rows_input.py:183 | stripping twice is stripping once |
| RowsInput.Truncate | original/python/rows_input.py:212-217 | `text if len(text) <= n else text[:n] + "..."`; `TruncateUnchanged` and `TruncatePrefix` state its result |
| RowsInput.TruncateUnchanged | original/python/rows_input.py:212 | the display equals the text iff the text fits, or it is exactly three characters too long and already ends in `...` |
| RowsInput.TruncatePrefix | original/python/rows_input.py:217 | the display keeps the first `n` characters, adds `...` only when the text is longer, and is at most `n + 3` long |
| RowsInput.SplitFirstLine | original/python/rows_input.py:173-179 | the line holds no newline; with a newline, `line + "\n" + rest` is the content; without one, the line is the whole content and the rest is empty |
| RowsInput.TakeFirstLine | original/python/rows_input.py:164-189 | `get_first_line` on the window's state: the new state and the line; `NoLineWhenBlank`, `TakesTextBeforeFirstNewline`, `TakesWholeSingleLine`, `NewBufferHasNoTrailingNewline` and `TrimOnlyAffectsLine` state its properties |
| RowsInput.InputLine | original/python/rows_input.py:191-218 | `input_first_line` on the window's state, given whether the typing went through; `InputWithoutLine`, `InputWithLine` and `LineLostWhenTypingFails` state its properties |
| RowsInput.NoLineWhenBlank | original/python/rows_input.py:167-170 | there is no line iff the text is empty or only newlines, and then nothing changes |
| RowsInput.TakesTextBeforeFirstNewline | original/python/rows_input.py:177-187 | the line is the text before the first newline, stripped if trimming is on, and the text area keeps exactly the text after that newline |
| RowsInput.TakesWholeSingleLine | original/python/rows_input.py:173-176 | without a newline, the whole text is the line, stripped if trimming is on, and the text area becomes empty |
| RowsInput.NewBufferHasNoTrailingNewline | original/python/rows_input.py:167-179 | the text written back never ends in a newline, and a blank first line is returned as `""`, not as no line |
| RowsInput.TrimOnlyAffectsLine | original/python/rows_input.py:182-187 | the text written back is the same with trimming on or off, and only the text area changes |
| RowsInput.InputWithoutLine | original/python/rows_input.py:193-198 | with no line, only the status changes, to "no more lines", whether or not anything could be typed; the last input is kept |
| RowsInput.InputWithLine | original/python/rows_input.py:212-218 | with a line, the last input is that line, which has no newline; the status shows it cut to 30 characters and the label cut to 50 |
| RowsInput.LineLostWhenTypingFails | original/python/rows_input.py:193-218 | when typing raises after a line was taken, the line is gone from the text area but status, last input and label keep their old values |
| RowsInput.SetTopmost | original/python/rows_input.py:145-150 | `toggle_topmost` on the window's state; `TogglesFollowCheckbox` states its result |
| RowsInput.SetTrimWhitespace | original/python/rows_input.py:152-156 | `toggle_trim_whitespace` on the window's state; `TogglesFollowCheckbox` states its result |
| RowsInput.SetPasteMode | original/python/rows_input.py:158-162 | `toggle_paste_mode` on the window's state; `TogglesFollowCheckbox` states its result |
| RowsInput.TogglesFollowCheckbox | original/python/rows_input.py:145-162 | each toggle copies the checkbox value into its flag and reports on or off, and setting a value twice is setting it once |
| RowsInput.TextLineInputter.constructor | original/python/rows_input.py:40-50 | all switches off, no last input, the ready status and the "none yet" label |
| RowsInput.TextLineInputter.GetFirstLine | original/python/rows_input.py:164-189 | the object's new state and the returned line are those of `TakeFirstLine`, whose properties the lemmas above state |
| RowsInput.TextLineInputter.InputFirstLine | original/python/rows_input.py:191-218 | returns whether the typing went through, and the new state is `InputLine` of the old one for that outcome |
| RowsInput.TextLineInputter.ToggleTopmost | original/python/rows_input.py:145-150 | the new state is `SetTopmost` of the old one |
| RowsInput.TextLineInputter.ToggleTrimWhitespace | original/python/rows_input.py:152-156 | the new state is `SetTrimWhitespace` of the old one |
| RowsInput.TextLineInputter.TogglePasteMode | original/python/rows_input.py:158-162 | the new state is `SetPasteMode` of the old one |

## Left out

- Threads in `write_data_to_files` and processes in `main`: they share no state, so the threads are run one after another and the processes are only their argument tuples.
- Real file I/O, `os.makedirs` and `os.path.join`: a write is an outcome that either succeeds or fails with the chunks written so far, and the output directory does not enter the name.
- Uniqueness of `uuid4` ids across threads, the value of `time.time()`, and the uniformity of `random`: only the ranges are modelled.
- Printing the `IOError` message: it has no effect on the state.
- Python `%` formatting beyond `%(key)d`, `%(key)s` and `%%`: other conversions are an `Unsupported` error.
- The docstring of `thief-of-diskspace.py` says `%%(level)d` outputs `%` and the level (line 14). Python outputs the literal text `%(level)d`, and the model follows Python (`PyFormat.EscapedPlaceholderIsLiteral`).
- The same docstring says a default run writes 10 MB (line 10), but `WORKLOAD` is 1 GB (line 41). The model follows the code (`DiskSpace.DefaultRunSplitsExactly`). Its "close to the limit" (line 17) is only the upper bound the code enforces.
- DiskSpace.GenerateFilesInThread: requires a configuration with at least one thread and `0 <= min <= max` for both ranges. With `min > max`, `randint` raises `ValueError`; that path is not modelled. With a negative minimum, a drawn width or height can be negative, so a "file" has a negative size and `total_volume` can go down; the budget bound then no longer means bytes written, and that case is not modelled either.
- `exec_func`, `measure_iterations`, `time_str`, the pi estimate, the memory ballast string, the dead `ps_list` join loop, and the sleeps at the end of a round: floating-point, clock-driven or dead code.
- CpuMem.MainRound: `round(random.uniform(0.01, 0.7), 2)` is modelled as any whole number of hundredths in 1..70; floating-point rounding is not modelled.
- CpuMem.SplitMemRandomly: `int(random.uniform(a, b))` is modelled as any integer in the closed interval between `a` and `b`. That is a superset: the upper end is reached only when `uniform` returns it exactly.
- RowsInput.TextLineInputter.ToggleTopmost: the window's `-topmost` attribute is not modelled; only the flag and the status are.
- RowsInput.TextLineInputter.GetFirstLine: Tk's `get("1.0", END)` is modelled as the text area's string followed by the one newline Tk keeps after it.
- Tk widgets, the message box, and the `keyboard` hook and its thread: UI and OS calls with no effect on the modelled state.
- RowsInput.TextLineInputter.InputFirstLine: `pyautogui` typing and the `pyperclip` clipboard save and restore (lines 201-210) are one outcome, `typed`. When it is false the call raised after the line was taken: the text area has lost the line and status, last input and label are unchanged (`RowsInput.LineLostWhenTypingFails`). Which call raised, the clipboard's contents and whether the old clipboard was restored are not modelled.
- PyFormat.RenderPlaceholder, PyFormat.RenderSegment, PyFormat.RenderTwoPlaceholders, PyFormat.MissingKeyFails: stated only for keys without parentheses. `Render` itself scans nested keys as Python does, and `PyFormat.NestedKeyIsRead`, `PyFormat.UnbalancedKeyIsIncomplete` and `PyFormat.EmptyNestedKeyIsIncomplete` cover keys with parentheses.

## Findings

| source | as written | input that shows it | evidently intended | confidence | as-written member | corrected member |
|---|---|---|---|---|---|---|
| original/python/thief-of-cpumem.py:133-137 | each draw is `int(uniform(lo, hi))` with `hi` capped at `value - sum(parts) - (num - len(parts) - 1)`. When the cap falls below `lo`, `uniform` accepts the reversed bounds and the draw can exceed the cap, so the remainder left for the last part can drop below 1. | `split_mem_randomly(70, 7)`: draws in [14, 15), [14, 15), [14, 15), [14, 15) and [11, 12) leave a cap of 2 under the lower bound 5; a draw in [4, 5) gives 4, and the result is `[14, 14, 14, 14, 11, 4, -1]` | no draw goes above the cap, so every share is at least 1 whenever `value >= num`. The shares of `main` (1..4 cores, at least 1000 MB) are not affected (`CpuMem.MainRangeAgrees`). | not executed | CpuMem.AsWrittenNegativeShare | CpuMem.SplitMemCorrected |
