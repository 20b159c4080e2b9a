# R2ABola quality selection, modelled in Dafny

This project models the rate-adaptation algorithm `R2ABola` of the pyDash
player. It chooses the quality index of the next media segment in three steps:

- It scores every rung of the quality ladder for the current playback-buffer
  level and keeps the first index with the highest score (the BOLA
  optimisation step, `find_best_qi`).
- When that candidate is above the previous choice, it tempers the step up
  with the last measured throughput (the hysteresis step in `bola_proto`).
  A scan finds `m_line`, and a three-way branch keeps the candidate, clamps to
  the previous choice, or takes `m_line + 1`.
- It appends the decision to the selection history. The response handler
  appends a throughput sample only when the segment was found.

Files:

- `bola.dfy` (module `Bola`) holds the specification as pure functions:
  - the scores of the ladder;
  - the first-maximum argmax (`FirstArgmaxOf`, `FirstArgmax`) and what it
    means (`IsFirstMax`);
  - the throughput scan (`FirstAbove`, `MLine`);
  - the three-way branch (`Adjust`);
  - the decision of one call (`Decide`, `Choose`);
  - the lemmas that connect these functions.
- `r2abola.dfy` (module `R2A`) holds the class `R2ABola`. Its fields are the
  ladder `qi` and the two histories `chosenQi` and `throughput`, as sequences
  that the methods reassign. The two loops of the source are methods with
  loop invariants, proved against the functions of `Bola`:
  - the argmax loop is `FindBestQi`;
  - the `m_line` scan of `bola_proto` is `ScanMLine`.

`BolaProto` follows the source statement by statement. It appends a 0 and
overwrites it with the argmax. It compares the last two entries. In the
step-up case it scans for `m_line`, runs the branch and overwrites the last
entry again.

Two details of the code that the model keeps as written:

- The clamp in the hysteresis branch compares `m_line` with `chosen_qi[-2]`
  after the new entry is appended (r2a/r2abola.py:87). That is the
  immediately previous choice, the same value the step-up test on line 78
  uses. `Decide` has one `previous` argument for both.
- The throughput sample is `bit_length / (now - request_time)`, with no guard
  on the elapsed time (r2a/r2abola.py:54). The model takes the sample as a
  value from the caller (see "Left out").

## Model

| member | source | states |
|---|---|---|
| `R2A.R2ABola.constructor` | r2a/r2abola.py:20-31 | a new selector has an empty ladder and both histories seeded with a single 0 |
| `R2A.R2ABola.HandleXmlResponse` | r2a/r2abola.py:36-40 | the parsed ladder becomes `qi`; the histories are not touched |
| `R2A.R2ABola.HandleSegmentSizeRequest` | r2a/r2abola.py:42-49 | the history becomes the old history plus exactly the decision `Choose` makes from the ladder's scores at the latest buffer level, the previous choice and the last throughput; that entry is a valid index into the non-empty ladder, so the bitrate lookup `qi[qidx]` is safe and returns that rung; if every history entry was a valid index before, every one still is |
| `R2A.R2ABola.HandleSegmentSizeResponse` | r2a/r2abola.py:51-56 | `throughput` gains exactly the one sample when the segment was found and is unchanged otherwise |
| `R2A.R2ABola.BolaProto` | r2a/r2abola.py:65-94 | each call makes `chosenQi` exactly one entry longer and keeps every earlier entry; the returned index is that new last entry; it equals `Choose`, that is `Decide` applied to the first-max argmax of the ladder's scores, the previous choice and the last throughput; on a non-empty ladder it is a valid index |
| `R2A.R2ABola.ScanMLine` | r2a/r2abola.py:79-84 | the scan loop with its early `break` computes `MLine` of the ladder and the previous measured bandwidth, which is a valid index of a non-empty ladder |
| `R2A.R2ABola.FindBestQi` | r2a/r2abola.py:98-114 | the loop, which starts from minus infinity and replaces the best only on a strictly greater score, returns the first index attaining the maximum score, with every rung scored at the level of the latest buffer sample (or 0 when there is none); it returns 0 for an empty ladder |
| `Bola.FirstArgmaxOf` | r2a/r2abola.py:99-113 | the argmax over a prefix is 0 for an empty prefix and otherwise an index inside it |
| `Bola.FirstArgmax` | r2a/r2abola.py:99-113 | the argmax over a non-empty sequence is one of its indices; for an empty or one-entry ladder it is 0 |
| `Bola.FirstArgmaxOfIsFirstMax` | r2a/r2abola.py:111-113 | over any non-empty prefix, the strict `>` scan returns an index whose score is at least every other score and strictly above every score before it, so ties go to the lowest index |
| `Bola.FirstArgmaxIsFirstMax` | r2a/r2abola.py:99-114 | the same holds for the whole score sequence |
| `Bola.FirstMaxIsFirstArgmax` | r2a/r2abola.py:99-114 | the converse: any first maximal index is exactly what the scan returns |
| `Bola.FirstAbove` | r2a/r2abola.py:81-83 | the scan stops at the first index whose bitrate exceeds the throughput, or at the end of the ladder; every bitrate before it is within the throughput |
| `Bola.FirstAboveUnique` | r2a/r2abola.py:81-83 | any stopping point with those two properties is the one the scan finds |
| `Bola.MLine` | r2a/r2abola.py:79-84 | `m_line` is 0 when the ladder is empty or its first bitrate already exceeds the throughput; otherwise every bitrate up to `m_line` is within the throughput and the next one, if any, exceeds it; it is a valid index of a non-empty ladder |
| `Bola.MLineAscending` | r2a/r2abola.py:79-84 | on an ascending ladder, `m_line` is the largest index whose bitrate is within the throughput, or 0 when no bitrate is |
| `Bola.Adjust` | r2a/r2abola.py:85-91 | if `m_line >= candidate` the result is the candidate; else if `m_line < previous` it is the previous choice; else it is `m_line + 1`; on a step up the result lies between the previous choice and the candidate |
| `Bola.Decide` | r2a/r2abola.py:78-91 | the result never exceeds the candidate; on a flat or downward move it is exactly the candidate; on a step up it is at least the previous choice and is the three-way branch applied to `m_line` |
| `Bola.Choose` | r2a/r2abola.py:71-94 | one decision from the ladder's scores is a valid index of any non-empty ladder, whatever the history holds |
| `Bola.SingleRungAlwaysZero` | r2a/r2abola.py:71-114 | on a one-rung ladder every decision is index 0, whatever the previous choice and throughput |
| `Bola.HysteresisExample` | r2a/r2abola.py:79-91 | on the ladder 300/750/1200/1850 with previous choice 0, candidate 2 and throughput 800, `m_line` is 1 and the decision is 2 |

## Left out

- The score is left abstract, as a function of (bitrate, buffer level) to a
  real (`ScoreFn`). The source computes `(V * (log(b / qi[0]) + gamma) - buffer) / b`
  in floating point (r2a/r2abola.py:108-110, 118-119). The model does not
  capture the logarithm, the division, or the raised errors for a zero or
  negative bitrate. It also cannot express NaN scores, which would never
  pass the `>` test. For the same reason the utility facts U(b0) = 0 and U
  increasing are not stated, and neither is the scenario where a buffer of 0
  makes the optimiser favour index 0.
- The throughput sample is a real number supplied by the caller. The Timer
  singleton, `request_time` and the division at r2a/r2abola.py:54 are not
  modelled, including its possible division by zero.
- The whiteboard is passed in as the sequence of (timestamp, level) samples.
  The shared store itself is not modelled.
- `parse_mpd` and the manifest payload are not modelled. The ladder is an
  input sequence to `HandleXmlResponse`.
- Message plumbing is not modelled: `send_up`/`send_down`,
  `handle_xml_request`, `add_quality_id` on the request message,
  `initialize`, `finalization` and the `IR2A` base class.
- R2A.R2ABola.HandleSegmentSizeRequest requires a non-empty ladder. In the
  source, an empty `qi` makes `self.qi[qidx]` raise; the player only requests
  segments after the manifest has arrived.
- R2A.R2ABola.FindBestQi and R2A.R2ABola.ScanMLine take the ladder as a
  parameter instead of reading `self.qi`. `ScanMLine` is the loop of
  r2a/r2abola.py:79-84, which the source writes inline in `bola_proto`.
- Replaying the same samples gives the same choices, because every decision
  is a function of its inputs. This is not stated as a separate lemma.
