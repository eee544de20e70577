/**
  Execution requests: the program files handed to the sandbox, the reserved
  file whose content becomes the program's standard input, and the upsert
  that attaches that file to a request.
 */
module Requests {
  import opened Wrappers

  /** A program file; `id` and `sha` record where a fetched file came from and are empty otherwise. */
  datatype File = File(name: string, content: string, id: string, sha: string)

  /** The value the sandbox receives: the declared language and the ordered files. */
  datatype Request = Request(language: string, files: seq<File>)

  /** The reserved file name whose content is fed to standard input. */
  const StdinName: string := "_stdin_"

  /** The stdin file carrying `content`, with no provenance. */
  function StdinFile(content: string): (f: File)
    ensures f.name == StdinName && f.content == content
    ensures f.id == "" && f.sha == ""
  {
    File(StdinName, content, "", "")
  }

  /** `i` is the position of the first file named `StdinName`. */
  predicate IsFirstStdin(files: seq<File>, i: int) {
    0 <= i < |files| && files[i].name == StdinName &&
    forall j :: 0 <= j < i ==> files[j].name != StdinName
  }

  predicate NoStdin(files: seq<File>) {
    forall j :: 0 <= j < |files| ==> files[j].name != StdinName
  }

  /** Where the first stdin file is, if there is one. */
  function FirstStdinIndex(files: seq<File>): (r: Option<nat>)
    ensures r.Some? ==> IsFirstStdin(files, r.value)
    ensures r.None? ==> NoStdin(files)
  {
    if files == [] then None
    else if files[0].name == StdinName then Some(0)
    else match FirstStdinIndex(files[1..])
      case None => None
      case Some(i) => Some(i + 1)
  }

  /** How many files are named `StdinName`. */
  function StdinCount(files: seq<File>): nat {
    if files == [] then 0
    else (if files[0].name == StdinName then 1 else 0) + StdinCount(files[1..])
  }

  /**
    The files after attaching `stdinFile`, file by file as the scan goes: the
    first file named `StdinName` takes the new content and keeps its name and
    provenance; if the scan finds none, `stdinFile` is added at the end.
   */
  function Upserted(files: seq<File>, stdinFile: File): seq<File> {
    if files == [] then [stdinFile]
    else if files[0].name == StdinName then [files[0].(content := stdinFile.content)] + files[1..]
    else [files[0]] + Upserted(files[1..], stdinFile)
  }

  /** With a stdin file at `i`, only that file's content changes and the length stays. */
  lemma {:induction false} UpsertReplacesFirst(files: seq<File>, stdinFile: File, i: int)
    requires IsFirstStdin(files, i)
    ensures |Upserted(files, stdinFile)| == |files|
    ensures Upserted(files, stdinFile)[i] == files[i].(content := stdinFile.content)
    ensures forall j :: 0 <= j < |files| && j != i ==> Upserted(files, stdinFile)[j] == files[j]
  {
    if i > 0 {
      assert IsFirstStdin(files[1..], i - 1) by {
        forall j | 0 <= j < i - 1 ensures files[1..][j].name != StdinName {
          assert files[1..][j] == files[j + 1];
        }
      }
      UpsertReplacesFirst(files[1..], stdinFile, i - 1);
    }
  }

  /** Without a stdin file, the old files stay as a prefix and `stdinFile` is appended. */
  lemma {:induction false} UpsertAppends(files: seq<File>, stdinFile: File)
    requires NoStdin(files)
    ensures Upserted(files, stdinFile) == files + [stdinFile]
  {
    if files != [] {
      assert NoStdin(files[1..]) by {
        forall j | 0 <= j < |files| - 1 ensures files[1..][j].name != StdinName {
          assert files[1..][j] == files[j + 1];
        }
      }
      UpsertAppends(files[1..], stdinFile);
      assert [files[0]] + (files[1..] + [stdinFile]) == files + [stdinFile];
    }
  }

  /** The two cases together: the length grows by one exactly when there was no stdin file. */
  lemma {:induction false} UpsertLength(files: seq<File>, stdinFile: File)
    ensures |Upserted(files, stdinFile)| == |files| + (if FirstStdinIndex(files).None? then 1 else 0)
  {
    match FirstStdinIndex(files)
    case None => UpsertAppends(files, stdinFile);
    case Some(i) => UpsertReplacesFirst(files, stdinFile, i);
  }

  /** Attaching the same stdin file twice gives the files of attaching it once. */
  lemma {:induction false} UpsertIdempotent(files: seq<File>, stdinFile: File)
    requires stdinFile.name == StdinName
    ensures Upserted(Upserted(files, stdinFile), stdinFile) == Upserted(files, stdinFile)
  {
    if files != [] && files[0].name != StdinName {
      UpsertIdempotent(files[1..], stdinFile);
      assert Upserted(files, stdinFile)[1..] == Upserted(files[1..], stdinFile);
    }
  }

  /** After attaching `StdinFile(content)`, the first stdin file there is carries `content`. */
  lemma {:induction false} UpsertDeliversStdin(files: seq<File>, content: string)
    ensures var r := Upserted(files, StdinFile(content));
      FirstStdinIndex(r).Some? && r[FirstStdinIndex(r).value].content == content
  {
    var r := Upserted(files, StdinFile(content));
    match FirstStdinIndex(files)
    case None =>
      UpsertAppends(files, StdinFile(content));
      assert IsFirstStdin(r, |files|);
    case Some(i) =>
      UpsertReplacesFirst(files, StdinFile(content), i);
      assert IsFirstStdin(r, i);
  }

  /** Attaching a stdin file never creates a second one: a request that had at most one has exactly one. */
  lemma {:induction false} UpsertKeepsOneStdin(files: seq<File>, stdinFile: File)
    requires stdinFile.name == StdinName
    ensures StdinCount(Upserted(files, stdinFile)) == if StdinCount(files) == 0 then 1 else StdinCount(files)
  {
    if files == [] {
    } else if files[0].name == StdinName {
      assert ([files[0].(content := stdinFile.content)] + files[1..])[1..] == files[1..];
    } else {
      UpsertKeepsOneStdin(files[1..], stdinFile);
      assert ([files[0]] + Upserted(files[1..], stdinFile))[1..] == Upserted(files[1..], stdinFile);
    }
  }

  /** A request as code.go builds it: its language and its ordered files, updated in place. */
  class Input {
    var language: string
    var files: seq<File>

    constructor (language: string, files: seq<File>)
      ensures this.language == language && this.files == files
    {
      this.language := language;
      this.files := files;
    }

    /** The value a run of this input sends to the sandbox. */
    function AsRequest(): Request
      reads this
    {
      Request(language, files)
    }
  }

  /**
    Scans the files for the first one named `StdinName` and overwrites its
    content in place; if there is none, appends `stdinFile`.
   */
  method UpdateStdin(input: Input, stdinFile: File)
    modifies input
    ensures input.language == old(input.language)
    ensures input.files == Upserted(old(input.files), stdinFile)
  {
    var i := 0;
    while i < |input.files|
      invariant 0 <= i <= |input.files|
      invariant input.files == old(input.files)
      invariant forall j :: 0 <= j < i ==> input.files[j].name != StdinName
    {
      if input.files[i].name == StdinName {
        UpsertReplacesFirst(input.files, stdinFile, i);
        input.files := input.files[i := input.files[i].(content := stdinFile.content)];
        return;
      }
      i := i + 1;
    }
    UpsertAppends(input.files, stdinFile);
    input.files := input.files + [stdinFile];
  }

  /** A fresh two-file request: the program source, then `input` (normally its stdin file). */
  method MakeInput(language: string, name: string, content: string, input: File) returns (r: Input)
    ensures fresh(r)
    ensures r.language == language
    ensures |r.files| == 2 && r.files[1] == input
    ensures r.files[0].name == name && r.files[0].content == content
    ensures r.files[0].id == "" && r.files[0].sha == ""
  {
    r := new Input(language, [File(name, content, "", ""), input]);
  }

  /**
    For a request shaped as `MakeInput` builds it, with a stdin file second and
    a source file first, attaching new stdin replaces the second file's content
    and nothing else.
   */
  lemma UpsertMadeInput(source: File, stdin: File, content: string)
    requires source.name != StdinName && stdin.name == StdinName
    ensures Upserted([source, stdin], StdinFile(content)) == [source, stdin.(content := content)]
  {
  }
}
