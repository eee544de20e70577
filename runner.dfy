/**
  Dispatching one request to the sandbox runner. The runner itself (JSON
  encoding of the request, the external run, JSON decoding of its reply) is
  one opaque step; only the gate in front of it and the mapping of its
  outcome to the two results the caller sees are modelled.
 */
module Runners {
  import opened Wrappers
  import opened Languages
  import opened Requests

  /** What a run produced; `error` is the sandbox's own report (compile error, timeout), kept as data. */
  datatype Output = Output(stdout: string, stderr: string, error: string)

  /** The output returned, together with an error, for a language the gate rejects. */
  const EmptyOutput: Output := Output("", "", "")

  /**
    The outcome of the opaque step: a decoded output; a reply that decodes
    without error to no output at all (the JSON literal `null`, which clears the
    result pointer); or a failure to encode the request or to decode the reply,
    with its message.
   */
  datatype Transport = Delivered(output: Output) | NullReply | Failed(message: string)

  /** The sandbox: its answer to a request, given how many requests it has already received. */
  type Exec = (nat, Request) -> Transport

  function UnsupportedMessage(lang: string): string {
    "Language " + lang + " not supported"
  }

  /**
    What a run of `req` returns as (output, error) when it is the `n`-th request
    the sandbox would see; `None` output stands for the nil result of code.go.
   */
  function Dispatch(exec: Exec, n: nat, req: Request): (r: (Option<Output>, Option<string>))
    ensures IsNotSupported(req.language) ==>
      r.0 == Some(EmptyOutput) && r.1 == Some(UnsupportedMessage(req.language))
    ensures !IsNotSupported(req.language) ==> (r.1.None? <==> !exec(n, req).Failed?)
    ensures !IsNotSupported(req.language) && exec(n, req).Delivered? ==> r.0 == Some(exec(n, req).output)
    ensures !IsNotSupported(req.language) && exec(n, req).Failed? ==> r.1 == Some(exec(n, req).message)
    ensures r.0.None? <==> !IsNotSupported(req.language) && !exec(n, req).Delivered?
  {
    if IsNotSupported(req.language) then (Some(EmptyOutput), Some(UnsupportedMessage(req.language)))
    else match exec(n, req)
      case Delivered(o) => (Some(o), None)
      case NullReply => (None, None)
      case Failed(m) => (None, Some(m))
  }

  /** A `null` reply is the one way to get no output and no error at once. */
  lemma NilWithoutError(exec: Exec, n: nat, req: Request)
    ensures Dispatch(exec, n, req) == (None, None) <==>
      !IsNotSupported(req.language) && exec(n, req).NullReply?
  {
  }

  /** The requests a run of `req` passes to the sandbox: none when the gate rejects it. */
  function Logged(req: Request): (l: seq<Request>)
    ensures |l| <= 1
    ensures l == [] <==> IsNotSupported(req.language)
    ensures l != [] ==> l[0] == req
  {
    if IsNotSupported(req.language) then [] else [req]
  }

  /** A rejected language never reaches the sandbox: neither the sandbox nor the moment of the call matters. */
  lemma GateSkipsSandbox(e1: Exec, e2: Exec, n1: nat, n2: nat, req: Request)
    requires IsNotSupported(req.language)
    ensures Dispatch(e1, n1, req) == Dispatch(e2, n2, req)
    ensures Dispatch(e1, n1, req).0 == Some(EmptyOutput) && Dispatch(e1, n1, req).1.Some?
  {
  }

  /**
    The runner handle. `log` lists, in order, every request that has passed the
    gate and gone to the sandbox; the sandbox may answer the same request
    differently at different moments, which is why `exec` sees the log's length.
   */
  class Runner {
    const runnerBinary: string
    const exec: Exec
    var log: seq<Request>

    constructor (runnerBinary: string, exec: Exec)
      ensures this.runnerBinary == runnerBinary && this.exec == exec && log == []
    {
      this.runnerBinary := runnerBinary;
      this.exec := exec;
      log := [];
    }

    /**
      Rejects an unsupported language with an empty output and an error, leaving
      the sandbox untouched; otherwise hands the request to the sandbox once and
      returns its output, or no output and the transport error.
     */
    method RunLocal(input: Input) returns (output: Option<Output>, err: Option<string>)
      modifies this
      ensures (output, err) == Dispatch(exec, |old(log)|, input.AsRequest())
      ensures log == old(log) + Logged(input.AsRequest())
    {
      var req := input.AsRequest();
      if IsNotSupported(input.language) {
        return Some(EmptyOutput), Some(UnsupportedMessage(input.language));
      }
      var t := exec(|log|, req);
      log := log + [req];
      match t
      case Delivered(o) => output, err := Some(o), None;
      case NullReply => output, err := None, None;
      case Failed(m) => output, err := None, Some(m);
    }

    method Run(input: Input) returns (output: Option<Output>, err: Option<string>)
      modifies this
      ensures (output, err) == Dispatch(exec, |old(log)|, input.AsRequest())
      ensures log == old(log) + Logged(input.AsRequest())
    {
      output, err := RunLocal(input);
    }
  }
}
