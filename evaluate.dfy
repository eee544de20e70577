/**
  Differential evaluation: run the generator once, give its standard output
  to both candidates as their standard input, run both, and report whether
  their standard outputs agree. code.go runs the candidates concurrently;
  here they run one after the other, and the verdict is shown not to depend
  on which result is read first.
 */
module Evaluation {
  import opened Wrappers
  import opened Requests
  import opened Runners

  datatype Result = Result(correct: bool)

  /**
    How an evaluation ends: with a verdict, or with the process crashing because
    a nil output or the missing first file of a candidate was dereferenced.
   */
  datatype Evaluation = Returned(result: Result) | Panicked

  /** The verdict on two candidate outputs: they differ exactly when their standard outputs do. */
  function Compare(out1: Output, out2: Output): (r: Result)
    ensures r.correct <==> out1.stdout == out2.stdout
  {
    if out1.stdout != out2.stdout then Result(false) else Result(true)
  }

  /** The order in which the two results are read does not change the verdict. */
  lemma CompareSymmetric(out1: Output, out2: Output)
    ensures Compare(out1, out2) == Compare(out2, out1)
  {
  }

  /** Standard error and the sandbox's error report play no part in the verdict. */
  lemma CompareIgnoresDiagnostics(out1: Output, out2: Output, stderr1: string, error1: string, stderr2: string, error2: string)
    ensures Compare(out1, out2) == Compare(out1.(stderr := stderr1, error := error1), out2.(stderr := stderr2, error := error2))
  {
  }

  /** A candidate's request once the generator's standard output is attached as its stdin file. */
  function WithStdin(req: Request, stdout: string): (r: Request)
    ensures r.language == req.language
    ensures FirstStdinIndex(r.files).Some? && r.files[FirstStdinIndex(r.files).value].content == stdout
  {
    UpsertDeliversStdin(req.files, stdout);
    req.(files := Upserted(req.files, StdinFile(stdout)))
  }

  /**
    Runs the generator once. In the order this model fixes, candidate 1 goes
    first: it crashes if the generator's output is nil or it has no files,
    otherwise it gets the generator's standard output as stdin and is run.
    Candidate 2 then crashes if it has no files, otherwise it gets the same
    stdin and is run. Their standard outputs are compared, crashing if either
    output is nil.
   */
  method Evaluate(inputGen: Input, inputCode1: Input, inputCode2: Input, runner: Runner) returns (e: Evaluation)
    modifies inputCode1, inputCode2, runner
    ensures var gen := old(inputGen.AsRequest());
      var genReply := Dispatch(runner.exec, |old(runner.log)|, gen);
      if genReply.0.None? || |old(inputCode1.files)| == 0 then
        e == Panicked && runner.log == old(runner.log) + Logged(gen) &&
        unchanged(inputCode1) && unchanged(inputCode2)
      else
        var stdout := genReply.0.value.stdout;
        var req1 := WithStdin(old(inputCode1.AsRequest()), stdout);
        var n1 := |old(runner.log)| + |Logged(gen)|;
        var reply1 := Dispatch(runner.exec, n1, req1);
        inputCode1.AsRequest() == req1 &&
        if |old(inputCode2.files)| == 0 then
          e == Panicked && runner.log == old(runner.log) + Logged(gen) + Logged(req1) &&
          unchanged(inputCode2)
        else
          var req2 := WithStdin(old(inputCode2.AsRequest()), stdout);
          var n2 := n1 + |Logged(req1)|;
          var reply2 := Dispatch(runner.exec, n2, req2);
          inputCode2.AsRequest() == req2 &&
          runner.log == old(runner.log) + Logged(gen) + Logged(req1) + Logged(req2) &&
          e == if reply1.0.None? || reply2.0.None? then Panicked
               else Returned(Compare(reply1.0.value, reply2.0.value))
  {
    var genOutput, genErr := runner.Run(inputGen);
    if genOutput.None? || |inputCode1.files| == 0 {
      return Panicked;
    }
    var stdin := StdinFile(genOutput.value.stdout);
    UpdateStdin(inputCode1, stdin);
    var output1, err1 := runner.Run(inputCode1);
    if |inputCode2.files| == 0 {
      return Panicked;
    }
    if inputCode2 == inputCode1 {
      UpsertIdempotent(old(inputCode1.files), stdin);
    }
    UpdateStdin(inputCode2, stdin);
    var output2, err2 := runner.Run(inputCode2);
    if output1.None? || output2.None? {
      return Panicked;
    }
    e := Returned(Compare(output1.value, output2.value));
  }
}
