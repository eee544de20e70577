/**
  Concrete evaluations against a sandbox whose programs are known: a
  generator that prints a fixed test, and candidates that echo their
  standard input, one of them with a trailing newline.
 */
module Scenarios {
  import opened Wrappers
  import opened Requests
  import opened Runners
  import opened Evaluation

  /** The content of the first stdin file, or "" when there is none. */
  function StdinOf(files: seq<File>): string {
    match FirstStdinIndex(files)
    case None => ""
    case Some(i) => files[i].content
  }

  /**
    The sandbox of these scenarios: `gen.py` prints the test, `echo.py` echoes
    its standard input, `echo_nl.py` echoes it with a newline added, and
    `broken.py` is a request whose reply cannot be decoded, and `null.py`
    one whose reply is `null`.
   */
  function EchoSandbox(n: nat, req: Request): Transport {
    if |req.files| == 0 then Delivered(EmptyOutput)
    else if req.files[0].name == "gen.py" then Delivered(Output("3\n1 2 3", "", ""))
    else if req.files[0].name == "echo.py" then Delivered(Output(StdinOf(req.files), "", ""))
    else if req.files[0].name == "echo_nl.py" then Delivered(Output(StdinOf(req.files) + "\n", "", ""))
    else if req.files[0].name == "null.py" then NullReply
    else Failed("unexpected end of JSON input")
  }

  /** A candidate built by `MakeInput` reads back exactly the stdin attached to it. */
  lemma MadeInputReadsStdin(name: string, code: string, content: string)
    requires name != StdinName
    ensures var files := Upserted([File(name, code, "", ""), StdinFile("")], StdinFile(content));
      files == [File(name, code, "", ""), StdinFile(content)] && StdinOf(files) == content
  {
    var source := File(name, code, "", "");
    UpsertMadeInput(source, StdinFile(""), content);
    assert IsFirstStdin([source, StdinFile(content)], 1);
  }

  /** The generator's reply in these scenarios: the fixed test, whatever the moment. */
  lemma GeneratorPrintsTest(n: nat)
    ensures Dispatch(EchoSandbox, n, Request("python", [File("gen.py", "print(...)", "", ""), StdinFile("")])).0
      == Some(Output("3\n1 2 3", "", ""))
  {
  }

  /** Two candidates that echo their standard input agree on the generated test. */
  method EchoesAgree() returns (e: Evaluation)
    ensures e == Returned(Result(true))
  {
    var runner := new Runner("runner", EchoSandbox);
    var gen := MakeInput("python", "gen.py", "print(...)", StdinFile(""));
    var a := MakeInput("python", "echo.py", "...", StdinFile(""));
    var b := MakeInput("python", "echo.py", "...", StdinFile(""));
    GeneratorPrintsTest(0);
    MadeInputReadsStdin("echo.py", "...", "3\n1 2 3");
    e := Evaluate(gen, a, b, runner);
  }

  /** Under the byte-exact comparison, a trailing newline makes the candidates disagree. */
  method TrailingNewlineDisagrees() returns (e: Evaluation)
    ensures e == Returned(Result(false))
  {
    var runner := new Runner("runner", EchoSandbox);
    var gen := MakeInput("python", "gen.py", "print(...)", StdinFile(""));
    var a := MakeInput("python", "echo.py", "...", StdinFile(""));
    var b := MakeInput("python", "echo_nl.py", "...", StdinFile(""));
    GeneratorPrintsTest(0);
    MadeInputReadsStdin("echo.py", "...", "3\n1 2 3");
    MadeInputReadsStdin("echo_nl.py", "...", "3\n1 2 3");
    e := Evaluate(gen, a, b, runner);
  }

  /** A candidate whose reply cannot be decoded has a nil output, and the evaluation crashes. */
  method UndecodableReplyCrashes() returns (e: Evaluation)
    ensures e == Panicked
  {
    var runner := new Runner("runner", EchoSandbox);
    var gen := MakeInput("python", "gen.py", "print(...)", StdinFile(""));
    var a := MakeInput("python", "broken.py", "...", StdinFile(""));
    var b := MakeInput("python", "echo.py", "...", StdinFile(""));
    GeneratorPrintsTest(0);
    MadeInputReadsStdin("broken.py", "...", "3\n1 2 3");
    MadeInputReadsStdin("echo.py", "...", "3\n1 2 3");
    e := Evaluate(gen, a, b, runner);
  }

  /** A candidate whose reply is `null` has a nil output and no error, and the evaluation crashes. */
  method NullReplyCrashes() returns (e: Evaluation)
    ensures e == Panicked
  {
    var runner := new Runner("runner", EchoSandbox);
    var gen := MakeInput("python", "gen.py", "print(...)", StdinFile(""));
    var a := MakeInput("python", "echo.py", "...", StdinFile(""));
    var b := MakeInput("python", "null.py", "...", StdinFile(""));
    GeneratorPrintsTest(0);
    MadeInputReadsStdin("echo.py", "...", "3\n1 2 3");
    MadeInputReadsStdin("null.py", "...", "3\n1 2 3");
    e := Evaluate(gen, a, b, runner);
  }

  /**
    When candidate 2 has no files, candidate 1 has already been given the test
    and dispatched by the time candidate 2 crashes.
   */
  method EmptySecondCandidateCrashesAfterFirstRun() returns (e: Evaluation, log: seq<Request>)
    ensures e == Panicked
    ensures log == [Request("python", [File("gen.py", "print(...)", "", ""), StdinFile("")]),
                    Request("python", [File("echo.py", "...", "", ""), StdinFile("3\n1 2 3")])]
  {
    var runner := new Runner("runner", EchoSandbox);
    var gen := MakeInput("python", "gen.py", "print(...)", StdinFile(""));
    var a := MakeInput("python", "echo.py", "...", StdinFile(""));
    var b := new Input("python", []);
    GeneratorPrintsTest(0);
    MadeInputReadsStdin("echo.py", "...", "3\n1 2 3");
    assert gen.files == [File("gen.py", "print(...)", "", ""), StdinFile("")];
    assert a.files == [File("echo.py", "...", "", ""), StdinFile("")];
    e := Evaluate(gen, a, b, runner);
    log := runner.log;
  }

  /** A candidate in a language the gate rejects runs as an empty output, and the evaluation still ends in a verdict. */
  method RejectedLanguageComparesEmpty() returns (e: Evaluation)
    ensures e == Returned(Result(false))
  {
    var runner := new Runner("runner", EchoSandbox);
    var gen := MakeInput("python", "gen.py", "print(...)", StdinFile(""));
    var a := MakeInput("java", "echo.py", "...", StdinFile(""));
    var b := MakeInput("python", "echo.py", "...", StdinFile(""));
    GeneratorPrintsTest(0);
    MadeInputReadsStdin("echo.py", "...", "3\n1 2 3");
    e := Evaluate(gen, a, b, runner);
  }

  /** A generator that prints a different test each time the sandbox runs it. */
  function ShiftingSandbox(n: nat, req: Request): Transport {
    if |req.files| > 0 && req.files[0].name == "gen.py" then
      Delivered(Output(if n == 0 then "first" else "later", "", ""))
    else EchoSandbox(n, req)
  }

  /**
    With a generator whose output changes from run to run, the generator still
    runs once, both candidates read that one output, and they agree.
   */
  method SingleGeneratorRun() returns (e: Evaluation, log: seq<Request>)
    ensures e == Returned(Result(true))
    ensures |log| == 3
    ensures log[0] == Request("python", [File("gen.py", "print(...)", "", ""), StdinFile("")])
    ensures log[1] == log[2] == Request("python", [File("echo.py", "...", "", ""), StdinFile("first")])
  {
    var runner := new Runner("runner", ShiftingSandbox);
    var gen := MakeInput("python", "gen.py", "print(...)", StdinFile(""));
    var a := MakeInput("python", "echo.py", "...", StdinFile(""));
    var b := MakeInput("python", "echo.py", "...", StdinFile(""));
    MadeInputReadsStdin("echo.py", "...", "first");
    assert Dispatch(ShiftingSandbox, 0, gen.AsRequest()).0 == Some(Output("first", "", ""));
    assert a.files == b.files == [File("echo.py", "...", "", ""), StdinFile("")];
    e := Evaluate(gen, a, b, runner);
    log := runner.log;
  }
}
