/** The item loader worker: for each file in turn, every item is pushed
    onto a buffer and the buffer is posted as a "batch" as soon as it holds
    `batchSize` items; a failing file is reported and skipped; the leftover
    buffer, when non-empty, and then "done" close the run. */
module ItemWorker {
  import opened Common
  import opened WorkerProtocol

  const DEFAULT_BATCH_SIZE: int := 100

  /** The size at which the buffer is posted: the `buffer.length >=
      batchSize` test fires after the first push when `batchSize` is below 1. */
  function Capacity(batchSize: int): (c: nat)
    ensures c >= 1 && c >= batchSize
    ensures batchSize >= 1 ==> c == batchSize
  {
    if batchSize < 1 then 1 else batchSize
  }

  /** What holds between files: no "done" yet, every batch posted so far
      full, and the buffer below the threshold. */
  ghost predicate Between<T>(msgs: seq<Msg<T>>, buffer: seq<T>, cap: nat) {
    && (forall k :: 0 <= k < |msgs| ==> !msgs[k].Done?)
    && (forall k :: 0 <= k < |Batches(msgs)| ==> |Batches(msgs)[k]| == cap)
    && |buffer| < cap
  }

  /** `buffer.push(item)`, then the post when the buffer has reached the
      threshold. */
  method PushOne<T>(msgs0: seq<Msg<T>>, buffer0: seq<T>, x: T, batchSize: int)
    returns (msgs: seq<Msg<T>>, buffer: seq<T>)
    requires Between(msgs0, buffer0, Capacity(batchSize))
    ensures Between(msgs, buffer, Capacity(batchSize))
    ensures Flatten(Batches(msgs)) + buffer == (Flatten(Batches(msgs0)) + buffer0) + [x]
    ensures ErrorFiles(msgs) == ErrorFiles(msgs0)
  {
    ghost var posted := Flatten(Batches(msgs0));
    msgs := msgs0;
    buffer := buffer0 + [x];
    assert posted + buffer == (posted + buffer0) + [x];
    if |buffer| >= batchSize {
      assert |buffer| == Capacity(batchSize);
      PostFull(msgs, buffer, Capacity(batchSize));
      msgs := msgs + [Batch(buffer)];
      buffer := [];
      assert Flatten(Batches(msgs)) + buffer == Flatten(Batches(msgs));
    }
  }

  /** The inner loop over one file's items. */
  method PushItems<T>(msgs0: seq<Msg<T>>, buffer0: seq<T>, items: seq<T>, batchSize: int)
    returns (msgs: seq<Msg<T>>, buffer: seq<T>)
    requires Between(msgs0, buffer0, Capacity(batchSize))
    ensures Between(msgs, buffer, Capacity(batchSize))
    ensures Flatten(Batches(msgs)) + buffer == Flatten(Batches(msgs0)) + buffer0 + items
    ensures ErrorFiles(msgs) == ErrorFiles(msgs0)
  {
    msgs, buffer := msgs0, buffer0;
    ghost var delivered := Flatten(Batches(msgs0)) + buffer0;
    var j := 0;
    assert delivered + items[..0] == delivered;
    while j < |items|
      invariant 0 <= j <= |items|
      invariant Between(msgs, buffer, Capacity(batchSize))
      invariant Flatten(Batches(msgs)) + buffer == delivered + items[..j]
      invariant ErrorFiles(msgs) == ErrorFiles(msgs0)
    {
      msgs, buffer := PushOne(msgs, buffer, items[j], batchSize);
      PrefixSnoc(delivered, items, j);
      j := j + 1;
    }
    assert items[..j] == items;
  }

  /** Posting a full buffer keeps the state between files valid. */
  lemma PostFull<T>(msgs: seq<Msg<T>>, buffer: seq<T>, cap: nat)
    requires forall k :: 0 <= k < |msgs| ==> !msgs[k].Done?
    requires forall k :: 0 <= k < |Batches(msgs)| ==> |Batches(msgs)[k]| == cap
    requires |buffer| == cap > 0
    ensures Between(msgs + [Batch(buffer)], [], cap)
    ensures Flatten(Batches(msgs + [Batch(buffer)])) == Flatten(Batches(msgs)) + buffer
    ensures ErrorFiles(msgs + [Batch(buffer)]) == ErrorFiles(msgs)
  {
    PostBatch(msgs, buffer);
    var m := msgs + [Batch(buffer)];
    assert forall k :: 0 <= k < |msgs| ==> m[k] == msgs[k];
  }

  /** Posting an error keeps the state between files valid and names the file. */
  lemma PostError<T>(msgs: seq<Msg<T>>, buffer: seq<T>, name: string, error: string, cap: nat)
    requires Between(msgs, buffer, cap)
    ensures Between(msgs + [Error(name, error)], buffer, cap)
    ensures Batches(msgs + [Error(name, error)]) == Batches(msgs)
    ensures ErrorFiles(msgs + [Error(name, error)]) == ErrorFiles(msgs) + [name]
  {
    PostOther(msgs, Error(name, error));
    var m := msgs + [Error(name, error)];
    assert forall k :: 0 <= k < |msgs| ==> m[k] == msgs[k];
  }

  /** One file: a failure posts an "error" message, a loaded file has its
      items pushed. */
  method Step<T>(msgs0: seq<Msg<T>>, buffer0: seq<T>, f: FileLoad<seq<T>>, batchSize: int)
    returns (msgs: seq<Msg<T>>, buffer: seq<T>)
    requires Between(msgs0, buffer0, Capacity(batchSize))
    ensures Between(msgs, buffer, Capacity(batchSize))
    ensures Flatten(Batches(msgs)) + buffer
            == Flatten(Batches(msgs0)) + buffer0 + (if f.outcome.Ok? then f.outcome.value else [])
    ensures ErrorFiles(msgs) == ErrorFiles(msgs0) + (if f.outcome.Err? then [f.name] else [])
  {
    if f.outcome.Err? {
      PostError(msgs0, buffer0, f.name, f.outcome.error, Capacity(batchSize));
      msgs, buffer := msgs0 + [Error(f.name, f.outcome.error)], buffer0;
      assert Flatten(Batches(msgs0)) + buffer0 + [] == Flatten(Batches(msgs0)) + buffer0;
    } else {
      msgs, buffer := PushItems(msgs0, buffer0, f.outcome.value, batchSize);
    }
  }

  /** After the last file: the leftover buffer, when non-empty, then "done". */
  method Finish<T>(msgs0: seq<Msg<T>>, buffer: seq<T>, cap: nat) returns (msgs: seq<Msg<T>>)
    requires Between(msgs0, buffer, cap)
    ensures Flatten(Batches(msgs)) == Flatten(Batches(msgs0)) + buffer
    ensures ErrorFiles(msgs) == ErrorFiles(msgs0)
    ensures EndsWithDone(msgs)
    ensures forall k :: 0 <= k < |Batches(msgs)| ==> 0 < |Batches(msgs)[k]| <= cap
    ensures forall k :: 0 <= k < |Batches(msgs)| - 1 ==> |Batches(msgs)[k]| == cap
  {
    msgs := msgs0;
    if |buffer| > 0 {
      PostBatch(msgs, buffer);
      var m := msgs + [Batch(buffer)];
      assert forall k :: 0 <= k < |msgs| ==> m[k] == msgs[k];
      msgs := m;
    } else {
      assert Flatten(Batches(msgs)) + buffer == Flatten(Batches(msgs));
    }
    PostDone(msgs);
    msgs := msgs + [Done];
  }

  /** The `batchSize` the message carries, or the default when it carries none. */
  function BatchSizeOf(requested: Option<int>): int {
    if requested.Some? then requested.value else DEFAULT_BATCH_SIZE
  }

  /** The worker's `onmessage`, given what loading each file gave. */
  method Run<T>(files: seq<FileLoad<seq<T>>>, requested: Option<int>) returns (msgs: seq<Msg<T>>)
    ensures Flatten(Batches(msgs)) == Delivered(files)
    ensures ErrorFiles(msgs) == FailedFiles(files)
    ensures EndsWithDone(msgs)
    ensures forall k :: 0 <= k < |Batches(msgs)| ==> 0 < |Batches(msgs)[k]| <= Capacity(BatchSizeOf(requested))
    ensures forall k :: 0 <= k < |Batches(msgs)| - 1 ==> |Batches(msgs)[k]| == Capacity(BatchSizeOf(requested))
  {
    var batchSize := BatchSizeOf(requested);
    msgs := [];
    var buffer: seq<T> := [];
    var i := 0;
    while i < |files|
      invariant 0 <= i <= |files|
      invariant Between(msgs, buffer, Capacity(batchSize))
      invariant Flatten(Batches(msgs)) + buffer == Delivered(files[..i])
      invariant ErrorFiles(msgs) == FailedFiles(files[..i])
    {
      LoadedPrefix(files, i);
      msgs, buffer := Step(msgs, buffer, files[i], batchSize);
      i := i + 1;
    }
    assert files[..i] == files;
    msgs := Finish(msgs, buffer, Capacity(batchSize));
  }
}
