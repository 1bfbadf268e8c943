# Exam simulator: prompt builder and live-page session logic

A Dafny model of the two pieces of logic at the heart of the exam simulator.

- **`getPrompt`** (`src/exam-simulator/utils/prompt.js`) builds the instruction text for the AI examiner. It works in two steps:
  - **Grading-scale expansion.** The identifiers `7-skala`, `bestået-ikke-bestået` and `no-grade` in the exam's `gradeCriteria` are replaced in place by fixed texts. Any other value is kept.
  - **Template assembly.** The duration, title, task time, learning goals, grading text, feedback and student task are interpolated into a fixed template.
- **`LivePage`** (`src/exam-simulator/pages/AIExaminerPage.tsx`) sets up an exam session. It:
  - selects the exam named by the `id` query parameter, falling back to the first exam;
  - computes the exam length, with an 8-minute default, in milliseconds;
  - keeps two flags, `voiceStarted` and `examIntentStarted`;
  - passes the countdown its properties;
  - mounts the GitHub-repo examiner or the standard examiner.

Modules:

- `Exam` (exam.dfy): the exam configuration record.
- `GradeTable` (grade_table.dfy): a row of the Danish 7-point table and the rendering of rows as text, exactly as the literal in the source lays them out: cells separated by a space and a tab, rows by a line break and four spaces.
- `GradeScale` (grade_scale.dfy): the three identifiers, the seven rows and the replacement texts, the expansion and the configuration rewrite.
- `PromptTemplate` (prompt_template.dfy): a template as a list of chunks. It lists fixed texts and interpolated values in template order, and the filled template is their concatenation. Lemmas say where each value lands, for any choice of fixed texts.
- `Prompt` (prompt.dfy): the fixed texts of `getPrompt`'s template, and `GetPrompt` itself. `GetPrompt` returns the prompt together with the rewritten configuration, because the source mutates its argument.
- `LivePage` (live_page.dfy): exam selection, the duration fallback, the flag transitions and their event-sequence properties, examiner dispatch, and the rendered page.
- `Text`, `Decimal`, `Wrappers`: helpers. These cover occurrence of a string at an offset, placement of chunks in a concatenation, decimal rendering of naturals with its parse-back, and `Option`/`Result`.

Facts about the code that shape the model:

- `getPrompt` rewrites `gradeCriteria` in the caller's object; it does not work on a copy. `GetPrompt` therefore returns the rewritten configuration alongside the prompt, and `GetPromptIdempotent` shows that a second call on it changes nothing.
- The task time in step 2 is the milliseconds argument divided by 60000.
- The page keeps two booleans, `voiceStarted` and `examIntentStarted`, and no other session state.
- The prompt's opening sentence uses the configured `duration` as stored, not the page's 8-minute fallback.

## Model

| member | source | states |
|---|---|---|
| GradeScale.ExpandGrade | src/exam-simulator/utils/prompt.js:2-14 | A known identifier is replaced by the text the identifier table assigns it. Any other grading text is returned unchanged. The result is never an identifier. |
| GradeScale.ExpandConfig | src/exam-simulator/utils/prompt.js:2-14 | The rewrite changes `gradeCriteria` only. An unknown grading text leaves the whole configuration equal to the input. |
| GradeScale.ExpandGradeIdempotent | src/exam-simulator/utils/prompt.js:2-14 | Expanding an already expanded grading text changes nothing. |
| GradeScale.ExpandConfigIdempotent | src/exam-simulator/utils/prompt.js:2-14 | Rewriting an already rewritten configuration changes nothing. |
| GradeScale.ReplacementsAreNotIdentifiers | src/exam-simulator/utils/prompt.js:3-13 | None of the three replacement texts is itself one of the identifiers. |
| GradeScale.ShortTextsLackIdentifiers | src/exam-simulator/utils/prompt.js:10-13 | Neither `Bestået/Ikke bestået` nor `The student should not get a grade!` contains any of the three identifiers anywhere. |
| GradeScale.SevenScaleLacksId | src/exam-simulator/utils/prompt.js:2-9 | `7-skala` occurs nowhere in the 7-point table that replaces it. |
| GradeScale.SevenScaleRowsNoPair | src/exam-simulator/utils/prompt.js:3-9 | No row of the 7-point table has a `7` directly followed by a `-`. The per-row Lacks lemmas supply this: rows 12 to 00 have no `-`, and row -3 has no `7`. |
| GradeTable.TableNoPair | src/exam-simulator/utils/prompt.js:3-9 | If no row has character a directly followed by b, and a is neither the line break nor a space, and b is not the line break, then the whole table has no such pair either. Row separators cannot create the pair. |
| GradeTable.RowLacks | src/exam-simulator/utils/prompt.js:3-9 | A rendered row lacks any character, other than space or tab, that none of its four cells contains. |
| GradeScale.SevenScaleOrder | src/exam-simulator/utils/prompt.js:3-9 | The table has seven rows. Their grades are 12, 10, 7, 4, 02, 00, -3 and their letters A, B, C, D, E, Fx, F. The grades are strictly decreasing in value. |
| GradeTable.GradeCellValues | src/exam-simulator/utils/prompt.js:3-9 | The grade cells 12, 10, 7, 4, 02, 00 and -3 read as the numbers 12, 10, 7, 4, 2, 0 and -3. |
| GradeTable.TableEnd | src/exam-simulator/utils/prompt.js:3-9 | The rendered table ends exactly where its last row, placed at its start index, ends: nothing follows the last row. |
| GradeTable.RowPlacement | src/exam-simulator/utils/prompt.js:3-9 | Every row of the table text appears at its start index, so the rows appear in list order. |
| GradeTable.RowStartStep | src/exam-simulator/utils/prompt.js:3-9 | Consecutive rows are separated by exactly a line break and the four-space indent: the separator occurs where a row ends, and the next row starts right after it. |
| GradeScale.SevenScaleTextStart | src/exam-simulator/utils/prompt.js:3 | The 7-point text begins with the grade-12 row (`12 ` and a tab) and is longer than its identifier. |
| Decimal.NatToString | src/exam-simulator/utils/prompt.js:16 | The interpolated number is a non-empty string of decimal digits with no leading zero. It is one digit exactly for values below 10. |
| Decimal.ParseNatToString | src/exam-simulator/utils/prompt.js:20 | Reading the printed digits back gives the number that was printed. |
| Decimal.NatToStringInjective | src/exam-simulator/utils/prompt.js:16 | Different numbers print differently. |
| PromptTemplate.TitleOrDefault | src/exam-simulator/utils/prompt.js:16 | The or-fallback on the title: a non-empty title is used as is, and an empty one becomes `exam`. |
| Prompt.GetPrompt | src/exam-simulator/utils/prompt.js:1-53 | The returned configuration differs from the input in `gradeCriteria` only. A known identifier there is replaced by its text, and an unknown value leaves the configuration as it was. The prompt is the template filled from that rewritten configuration. |
| PromptTemplate.Fill | src/exam-simulator/utils/prompt.js:16-50 | The filled template is exactly as long as its eighteen chunks together, so nothing is added between or after them. |
| PromptTemplate.PieceAt | src/exam-simulator/utils/prompt.js:16-50 | Every template chunk and every interpolated value occurs in the prompt at the total length of the chunks before it. |
| PromptTemplate.PairAt | src/exam-simulator/utils/prompt.js:16-50 | Consecutive chunks occur adjacently. Each starts where the previous one ends. |
| PromptTemplate.FillOpening | src/exam-simulator/utils/prompt.js:16 | A filled template begins with its opening text. The duration, the minute word, the title (or `exam`) and the following text come next, each starting where the previous one ends. |
| Prompt.PromptOpening | src/exam-simulator/utils/prompt.js:16 | The prompt begins `You are a friendly examiner running a `. Next come the duration, ` minute `, the title (or `exam`) and ` exam. `. |
| PromptTemplate.FillTaskTime | src/exam-simulator/utils/prompt.js:20 | The task time in step 2 is the printed value of the milliseconds argument divided by 60000. It sits directly between the fixed text before it and the fixed text after it. |
| PromptTemplate.FillSections | src/exam-simulator/utils/prompt.js:24-32 | Learning goals, grading text and feedback each follow their fixed heading verbatim. They appear in that order, and before the task. |
| PromptTemplate.FillTask | src/exam-simulator/utils/prompt.js:34-50 | The student task sits between two delimiter lines. Only the closing notes follow the second one, up to the end of the filled text. |
| Prompt.PromptTask | src/exam-simulator/utils/prompt.js:34-37 | In the prompt the student task sits on its own between two lines holding only `"""`. |
| Prompt.GradingSection | src/exam-simulator/utils/prompt.js:2-29 | In a template filled from the rewritten configuration, the grading heading is followed by the expanded text. For a known identifier that is the fixed text, which differs from the identifier. For every known identifier, the identifier occurs nowhere in it. An unknown value appears verbatim. |
| Prompt.GetPromptIdempotent | src/exam-simulator/utils/prompt.js:1-53 | Calling `getPrompt` again on the configuration the first call rewrote gives the same prompt and the same configuration. |
| PromptTemplate.FillDeterminesTask | src/exam-simulator/utils/prompt.js:34-37 | Two configurations that differ only in the student task give different filled texts. |
| LivePage.RequestedId | src/exam-simulator/pages/AIExaminerPage.tsx:25 | An absent or empty `id` parameter means no id. Any other value is used as is. |
| LivePage.FindById | src/exam-simulator/pages/AIExaminerPage.tsx:29 | The found index holds an exam with the id, and no earlier exam has it. No index is found only when no exam has the id. |
| LivePage.SelectExam | src/exam-simulator/pages/AIExaminerPage.tsx:28-29 | With an id that some exam has, the first such exam is selected. With a missing, empty or unmatched id, the first exam is selected. Nothing is selected exactly when the list is empty. |
| LivePage.EffectiveMinutes | src/exam-simulator/pages/AIExaminerPage.tsx:32 | The minutes are the configured duration when it is non-zero, and otherwise 8. A missing exam also gives 8. The result is always positive. |
| LivePage.MinutesToMs | src/exam-simulator/pages/AIExaminerPage.tsx:33 | The milliseconds are a multiple of 60000 and divide back to the minutes. They are positive for positive minutes. |
| LivePage.HandleVoiceStart | src/exam-simulator/pages/AIExaminerPage.tsx:42 | Afterwards `voiceStarted` holds and `examIntentStarted` is unchanged. A repeated call is a no-op. |
| LivePage.OnStartExamClicked | src/exam-simulator/pages/AIExaminerPage.tsx:44-51 | Afterwards `examIntentStarted` equals the button state, whatever it was before, and `voiceStarted` is unchanged. |
| LivePage.Step | src/exam-simulator/pages/AIExaminerPage.tsx:42-51 | After one event, `voiceStarted` holds exactly when it held before or the event is a voice start. `examIntentStarted` is the button state for a toggle and unchanged otherwise. |
| LivePage.Run | src/exam-simulator/pages/AIExaminerPage.tsx:36-51 | A sequence without a voice start leaves `voiceStarted` as it was. A sequence without a toggle leaves `examIntentStarted` as it was. |
| LivePage.VoiceStartedMonotone | src/exam-simulator/pages/AIExaminerPage.tsx:36-51 | Once `voiceStarted` holds, no sequence of events makes it false again. |
| LivePage.VoiceStartedIffReported | src/exam-simulator/pages/AIExaminerPage.tsx:36-51 | Starting from false, `voiceStarted` holds after a sequence of events exactly when that sequence contains a voice start. |
| LivePage.IntentFollowsLastToggle | src/exam-simulator/pages/AIExaminerPage.tsx:39-51 | After any sequence of events, `examIntentStarted` is the value of the last button toggle. With no toggle it keeps its previous value. |
| LivePage.ChooseExaminer | src/exam-simulator/pages/AIExaminerPage.tsx:70-80 | Exam type `Github Repo` selects the repo examiner, which gets no intent flag. Any other type selects the standard examiner, which gets `examIntentStarted`. Both get the selected exam. |
| LivePage.RenderPage | src/exam-simulator/pages/AIExaminerPage.tsx:28-80 | The page fails exactly when no exam exists, because the title of `undefined` is read. Otherwise it shows the selected exam's heading, the examiner chosen for it, and a countdown. The countdown gets the effective milliseconds, `autoStart = false` and `startTrigger = voiceStarted`. |
| LivePage.CountdownWaitsForVoice | src/exam-simulator/pages/AIExaminerPage.tsx:36-68 | From the initial flags, any sequence of events without a voice start leaves the countdown's start trigger false, with a positive total. |

## Left out

- The API-key check, the WebSocket address and `LiveAPIProvider` (AIExaminerPage.tsx:12-18, 55) are configuration and network transport.
- The video element, media stream state and `ControlTrayCustom` wiring (AIExaminerPage.tsx:22-23, 82-101) are media capture and layout.
- `CountdownTimer`, `AIExaminer` and `GithubRepo` are outside the model: they own timer ticks and the detection of voice start. `getPrompt`'s caller is not among the modelled files. The page is modelled up to the properties it hands them.
- `LandingPage.tsx` (static markup) and `AppRouter.tsx` (a path-to-page table) contain no logic.
- Prompt.GetPrompt: the milliseconds argument must be a multiple of 60000, because JavaScript would print a fractional task time and number formatting is not modelled. Durations are naturals printed in decimal.
- Exam fields are always present strings or naturals. A missing title is the empty string, which `||` treats like absence. A missing duration is 0. JavaScript's printing of `undefined` inside the template is not modelled.
- React rendering, re-rendering and hook scheduling are not modelled. The flags are a record updated by pure transition functions, and an event sequence is folded over it.
