/** The messages a loader worker posts back to the page, and the view of a
    run as what it delivered: the batches in order, the files it reported
    as failed, and the closing "done". */
module WorkerProtocol {
  import opened Common

  datatype Msg<T> = Batch(data: seq<T>) | Error(file: string, error: string) | Done

  /** One file of the run and what loading it gave: its parsed content, or
      the message of the error thrown while fetching or parsing it. */
  datatype FileLoad<D> = FileLoad(name: string, outcome: Result<D, string>)

  /** The payloads of the "batch" messages, in order. */
  function Batches<T>(msgs: seq<Msg<T>>): seq<seq<T>>
    decreases |msgs|
  {
    if msgs == [] then []
    else
      var m := msgs[|msgs| - 1];
      Batches(msgs[..|msgs| - 1]) + (if m.Batch? then [m.data] else [])
  }

  /** The files named by the "error" messages, in order. */
  function ErrorFiles<T>(msgs: seq<Msg<T>>): seq<string>
    decreases |msgs|
  {
    if msgs == [] then []
    else
      var m := msgs[|msgs| - 1];
      ErrorFiles(msgs[..|msgs| - 1]) + (if m.Error? then [m.file] else [])
  }

  lemma BatchesSnoc<T>(msgs: seq<Msg<T>>, m: Msg<T>)
    ensures Batches(msgs + [m]) == Batches(msgs) + (if m.Batch? then [m.data] else [])
    ensures ErrorFiles(msgs + [m]) == ErrorFiles(msgs) + (if m.Error? then [m.file] else [])
  {
    assert (msgs + [m])[..|msgs|] == msgs;
  }

  /** Posting a batch adds its payload to the delivered items and names
      no failed file. */
  lemma PostBatch<T>(msgs: seq<Msg<T>>, data: seq<T>)
    ensures Batches(msgs + [Batch(data)]) == Batches(msgs) + [data]
    ensures Flatten(Batches(msgs + [Batch(data)])) == Flatten(Batches(msgs)) + data
    ensures ErrorFiles(msgs + [Batch(data)]) == ErrorFiles(msgs)
  {
    BatchesSnoc(msgs, Batch(data));
    FlattenSnoc(Batches(msgs), data);
  }

  /** Posting an error or "done" delivers nothing. */
  lemma PostOther<T>(msgs: seq<Msg<T>>, m: Msg<T>)
    requires !m.Batch?
    ensures Batches(msgs + [m]) == Batches(msgs)
    ensures ErrorFiles(msgs + [m]) == ErrorFiles(msgs) + (if m.Error? then [m.file] else [])
  {
    BatchesSnoc(msgs, m);
  }

  /** The names of the files whose loading failed, in order. */
  function FailedFiles<D>(files: seq<FileLoad<D>>): seq<string>
    decreases |files|
  {
    if files == [] then []
    else
      var f := files[|files| - 1];
      FailedFiles(files[..|files| - 1]) + (if f.outcome.Err? then [f.name] else [])
  }

  lemma FailedFilesSnoc<D>(files: seq<FileLoad<D>>, f: FileLoad<D>)
    ensures FailedFiles(files + [f]) == FailedFiles(files) + (if f.outcome.Err? then [f.name] else [])
  {
    assert (files + [f])[..|files|] == files;
  }

  /** The content of the files that loaded, concatenated in file order. */
  function Delivered<T>(files: seq<FileLoad<seq<T>>>): seq<T>
    decreases |files|
  {
    if files == [] then []
    else
      var f := files[|files| - 1];
      Delivered(files[..|files| - 1]) + (if f.outcome.Ok? then f.outcome.value else [])
  }

  lemma DeliveredSnoc<T>(files: seq<FileLoad<seq<T>>>, f: FileLoad<seq<T>>)
    ensures Delivered(files + [f]) == Delivered(files) + (if f.outcome.Ok? then f.outcome.value else [])
  {
    assert (files + [f])[..|files|] == files;
  }

  /** One more file of the run. */
  lemma LoadedPrefix<T>(files: seq<FileLoad<seq<T>>>, i: nat)
    requires i < |files|
    ensures Delivered(files[..i + 1])
            == Delivered(files[..i]) + (if files[i].outcome.Ok? then files[i].outcome.value else [])
    ensures FailedFiles(files[..i + 1])
            == FailedFiles(files[..i]) + (if files[i].outcome.Err? then [files[i].name] else [])
  {
    assert files[..i + 1] == files[..i] + [files[i]];
    DeliveredSnoc(files[..i], files[i]);
    FailedFilesSnoc(files[..i], files[i]);
  }

  /** A run is closed by exactly one "done", as its last message. */
  predicate EndsWithDone<T>(msgs: seq<Msg<T>>) {
    |msgs| > 0 && msgs[|msgs| - 1].Done?
    && forall k :: 0 <= k < |msgs| - 1 ==> !msgs[k].Done?
  }

  /** "done" after messages that hold none closes the run and delivers
      nothing more. */
  lemma PostDone<T>(msgs: seq<Msg<T>>)
    requires forall k :: 0 <= k < |msgs| ==> !msgs[k].Done?
    ensures EndsWithDone(msgs + [Done])
    ensures Batches(msgs + [Done]) == Batches(msgs)
    ensures ErrorFiles(msgs + [Done]) == ErrorFiles(msgs)
  {
    PostOther(msgs, Done);
    var m := msgs + [Done];
    assert forall k :: 0 <= k < |msgs| ==> m[k] == msgs[k];
  }
}
