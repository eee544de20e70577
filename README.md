# Differential evaluation harness: a Dafny model

This project models the core of a differential-testing harness for
competitive-programming solutions. A generator program runs once in a sandbox.
Its standard output becomes the standard input of two candidate programs, and
the harness reports whether the two candidates print the same thing.

The model covers four parts of `code.go`:

- **Languages** (`languages.dfy`). This is the registry of languages, each with a
  sandbox image and an enabled flag, and the gate `IsNotSupported`. A language
  passes only when it is in the registry, enabled, and has an image. With this
  registry, exactly `cpp`, `go`, `javascript` and `python` pass.
- **Requests** (`requests.dfy`). These are the program files, the request class
  `Input` (updated in place, as the source's `*Input` is), the reserved
  `_stdin_` file, and `UpdateStdin`. `UpdateStdin` is a loop. It overwrites the
  content of the first `_stdin_` file, or appends the given file when there is
  none. It is proved equal to the recursive specification `Upserted`. The
  properties of the upsert are lemmas about `Upserted`: which file changes,
  the length, prefix preservation, idempotence, delivery of the new content,
  and that no second stdin file appears.
- **Runners** (`runner.dfy`). This is `RunLocal` on a `Runner`. A rejected
  language gets an empty output and an error, and the sandbox is not called.
  Otherwise the request goes to the sandbox once. The sandbox is one opaque
  step, `exec`, that covers JSON encoding, the external run and JSON decoding.
  It returns a decoded output, a `null` reply, or a failure. A `null` reply
  decodes without error to a nil output, so `RunLocal` then returns no output
  and no error. `exec` is given the number
  of requests the sandbox has already received, so it may answer the same
  request differently at different times, like a random generator. The
  runner's `log` lists every request that reached the sandbox.
- **Evaluation** (`evaluate.dfy`). This is `Evaluate`, run one step after another:
  1. Run the generator once.
  2. Attach its standard output to both candidates with `UpdateStdin`.
  3. Run both candidates.
  4. Compare their standard outputs byte for byte.

  Its postcondition gives the whole new state and the outcome. The new state is
  both candidates' requests and the runner's log. The log gains the generator's
  request, then candidate 1's, then candidate 2's. Each request is recorded only
  if its language passes the gate. The generator is dispatched at most once.
  The verdict does not depend on which candidate result is read first at the
  join. It also ignores standard error and the sandbox's error field.

`scenarios.dfy` calls `Evaluate` on concrete sandboxes and proves the verdict:

- Two echoing candidates agree on the test `"3\n1 2 3"`.
- A candidate that adds a trailing newline makes the verdict false.
- A candidate whose reply cannot be decoded crashes the evaluation.
- A candidate whose reply is `null` crashes the evaluation too.
- A candidate in a rejected language compares as an empty output.
- A generator whose output changes from run to run is still run only once, and
  both candidates read that one output.

How `code.go` handles failed runs:

- A failed dispatch does not become an empty result. When encoding or decoding
  fails, `RunLocal` returns a nil output (code.go:86, 96). A `null` reply also
  leaves a nil output, with no error (code.go:93-98). `Evaluate` then
  dereferences it: the generator's output at code.go:163, a candidate's at
  code.go:177. So the process crashes. The model's outcome is then `Panicked`.
- A candidate with no files also crashes, when its first file is read at
  code.go:162. That is `Panicked` too. In the order the model fixes, an empty
  candidate 2 crashes only after candidate 1 has been given the test and
  dispatched.
- Only a rejected language has an empty output substituted (code.go:82). That output is
  compared like any other.

## Model

| member | source | states |
|---|---|---|
| Languages.IsNotSupported | code.go:40-72 | a language is rejected (not in the registry, or disabled, or with no image) exactly when it is not one of cpp, go, javascript, python |
| Languages.RejectionConditions | code.go:70-72 | each of the three conditions rejects on its own; all three passing accepts |
| Languages.JavaRejectedDespiteImage | code.go:40-72 | java has the image glot/java and is still rejected |
| Languages.EnabledEntriesHaveImages | code.go:40-68 | every enabled registry entry has a non-empty image and is accepted |
| Requests.Input.constructor | code.go:20-23 | a request holds its language and its ordered files |
| Requests.StdinFile | code.go:106-111 | the stdin file is named `_stdin_`, carries the given content and has empty id and sha |
| Requests.FirstStdinIndex | code.go:114-115 | the index returned is the first file named `_stdin_`; none is returned only when no file has that name |
| Requests.UpsertReplacesFirst | code.go:114-118 | when a stdin file exists, only the first one's content changes: its name, id and sha stay, every other file (later stdin files included) stays, and the length stays |
| Requests.UpsertAppends | code.go:120 | when no stdin file exists, the old files are an unchanged prefix and the given file is appended |
| Requests.UpsertLength | code.go:113-122 | the length grows by one exactly when there was no stdin file, and is unchanged otherwise |
| Requests.UpsertIdempotent | code.go:113-122 | attaching the same stdin file (named `_stdin_`) twice gives the files of attaching it once |
| Requests.UpsertDeliversStdin | code.go:106-122 | after attaching `StdinFile(s)` the first stdin file exists and has content s |
| Requests.UpsertKeepsOneStdin | code.go:113-122 | attaching a stdin file never adds a second stdin file: zero becomes one, and any other number stays |
| Requests.UpdateStdin | code.go:113-122 | the in-place scan leaves the files equal to `Upserted` of the old files and keeps the language |
| Requests.MakeInput | code.go:124-135 | a fresh request with the given language and exactly two files: the source with empty id and sha, then the given file |
| Requests.UpsertMadeInput | code.go:113-135 | on a request shaped as MakeInput builds it, new stdin replaces only the second file's content |
| Runners.Dispatch | code.go:79-98 | a rejected language gives an empty output and the "Language … not supported" error; otherwise there is an error exactly on a transport failure, a delivered output is returned as is, and the output is nil exactly when nothing was delivered (a transport failure or a `null` reply) |
| Runners.NilWithoutError | code.go:93-98 | a run returns nil output and no error at once exactly when the language passes the gate and the reply is `null` |
| Runners.Logged | code.go:81-91 | a request reaches the sandbox exactly when its language passes the gate |
| Runners.GateSkipsSandbox | code.go:81-83 | for a rejected language the result depends neither on the sandbox nor on when it is called |
| Runners.Runner.constructor | code.go:74-77 | a runner holds its binary path and a sandbox that has received nothing |
| Runners.Runner.RunLocal | code.go:79-100 | returns the dispatch result, including nil output with no error for a `null` reply, and appends the request to the log only when the gate admits it |
| Runners.Runner.Run | code.go:102-104 | behaves as RunLocal |
| Evaluation.Compare | code.go:177-188 | correct exactly when the two standard outputs are equal |
| Evaluation.CompareSymmetric | code.go:175-188 | the verdict does not depend on which result is read first |
| Evaluation.CompareIgnoresDiagnostics | code.go:177-183 | standard error and the sandbox's error field never change the verdict |
| Evaluation.WithStdin | code.go:159-165 | a candidate's request with the generator's output attached keeps its language and has that output as its first stdin content |
| Evaluation.Evaluate | code.go:141-184 | the generator is dispatched at most once (not at all when its language is rejected); a nil generator output or a candidate 1 with no files crashes before any candidate runs; a candidate 2 with no files crashes after candidate 1 has been given the generator output and dispatched; otherwise both candidates get the same generator output as stdin, run once each, and the outcome is the comparison of their outputs, or a crash if either output is nil; the new candidate requests and the runner's log are stated exactly |
| Scenarios.MadeInputReadsStdin | code.go:113-135 | a MakeInput request reads back exactly the stdin attached to it |
| Scenarios.EchoesAgree | code.go:141-184 | two echoing candidates agree on a generated test |
| Scenarios.TrailingNewlineDisagrees | code.go:177-188 | a trailing newline makes the verdict false |
| Scenarios.UndecodableReplyCrashes | code.go:93-98 | an undecodable candidate reply crashes the evaluation instead of comparing as empty |
| Scenarios.NullReplyCrashes | code.go:93-98 | a `null` candidate reply gives a nil output with no error, and the evaluation crashes |
| Scenarios.EmptySecondCandidateCrashesAfterFirstRun | code.go:157-167 | with an empty candidate 2, the crash comes after the generator run and candidate 1's run, both of which are in the log |
| Scenarios.RejectedLanguageComparesEmpty | code.go:81-83 | a rejected candidate language compares as an empty output, with no crash |
| Scenarios.SingleGeneratorRun | code.go:150-159 | with a generator whose output changes from run to run, the log holds one generator run and both candidates read the same output |

## Left out

- The goroutines and channels of `Evaluate` (code.go:142-175). The model runs candidate 1 and then candidate 2 in sequence. The channels only pass each consumer a value once. `CompareSymmetric` shows the verdict does not depend on the order in which the two results are read at the join (code.go:175).
- Evaluation.Evaluate: fixes candidate 1 as the first candidate to reach the sandbox. The goroutines at code.go:157-173 may dispatch either candidate first. The sandbox's answer may depend on the call count, for example a program that behaves differently on its second run. With such a sandbox the source may return either verdict, and the model states only the one for this order. Interleavings and data races are not modelled. That includes a race when both candidates are the same `*Input`. The sequential model handles that case through `UpsertIdempotent`.
- JSON encoding and decoding and the external `runlib.Run` (code.go:84-97) are foreign code and an external process. They form the one opaque step `exec`. An encoding failure and a decoding failure are both `Failed`. An encoding failure is still recorded in the runner's log.
- The sandbox's own behaviour, timeouts and hangs are not modelled. Every call to `exec` returns.
- After a crash (`Panicked`), the Go process is gone. The model states the candidates' and runner's state only as the sequential order leaves it. In code.go the candidate goroutines do not wait for each other. Depending on timing, the other candidate may or may not have been updated and dispatched before the crash. The model records only the order it fixes.
- Logging (`process` and the `log.Info` calls) only prints. The only part modelled is the panic when `log.Info` reads a candidate's first file or the generator's output (code.go:162-163).
- `NewRunner` resolving the runner path with `filepath.Abs` (code.go:74-77) is operating-system path handling. The constructor takes the path as given.
- Go slices sharing a backing array after `append` are not modelled. Files are values in a sequence.
- `cmd/eval-gist/main.go` is command-line parsing and calls to gist-fetching functions. `GistEvaluate` and `GistFetch` are not part of this model.
