/** The metadata loader worker: each file's records are normalised (the
    proof field chosen, the attributes kept both as the exact JSON text the
    contract needs and as a parsed list), appended to a buffer, and the
    buffer is posted as a "batch" once a whole file leaves it holding at
    least `batchSize` records. `JSON.parse` and `JSON.stringify` are the
    parameters `parse` and `serialize`. */
module MetadataWorker {
  import opened Common
  import opened Traits
  import opened WorkerProtocol

  const DEFAULT_BATCH_SIZE: int := 200

  // ---------------------------------------------------------------
  // Unescaping the attributes text
  // ---------------------------------------------------------------

  /** The characters a regular-expression `.` does not match. */
  predicate IsLineTerminator(c: char) {
    c == '\n' || c == '\r' || c == '\U{2028}' || c == '\U{2029}'
  }

  /** `replace(/\\(.)/g, '$1')`: scanning left to right, a backslash and
      the character after it (unless that is a line terminator) become
      that character. */
  function Unescape(s: string): (r: string)
    ensures |r| <= |s|
    decreases |s|
  {
    if s == [] then []
    else if |s| >= 2 && s[0] == '\\' && !IsLineTerminator(s[1]) then [s[1]] + Unescape(s[2..])
    else [s[0]] + Unescape(s[1..])
  }

  /** Text without a backslash is left as it is. */
  lemma {:induction false} UnescapePlain(s: string)
    requires '\\' !in s
    ensures Unescape(s) == s
    decreases |s|
  {
    if s != [] {
      assert s[1..] == s[1..];
      assert '\\' !in s[1..] by {
        forall k | 0 <= k < |s[1..]| ensures s[1..][k] != '\\' {
          assert s[1..][k] == s[k + 1];
        }
      }
      UnescapePlain(s[1..]);
    }
  }

  /** How a JSON string escapes a backslash and a double quote. */
  function Escape(s: string): string
    decreases |s|
  {
    if s == [] then []
    else (if s[0] == '\\' || s[0] == '"' then ['\\', s[0]] else [s[0]]) + Escape(s[1..])
  }

  /** Unescaping undoes that escaping. */
  lemma {:induction false} UnescapeEscape(s: string)
    ensures Unescape(Escape(s)) == s
    decreases |s|
  {
    if s != [] {
      UnescapeEscape(s[1..]);
      var e := Escape(s);
      var rest := Escape(s[1..]);
      if s[0] == '\\' || s[0] == '"' {
        assert e == ['\\', s[0]] + rest;
        assert e[2..] == rest;
      } else {
        assert e == [s[0]] + rest;
        assert e[1..] == rest;
      }
    }
  }

  // ---------------------------------------------------------------
  // Normalising records
  // ---------------------------------------------------------------

  /** The `attributes` field of a record: JSON text, or an already parsed list. */
  datatype AttrField = AttrText(text: string) | AttrList(list: seq<Attribute>)

  /** A record as the file holds it. `rawAttributes` is the escaped
      attributes text that the search of the file's raw text found for this
      record, if it found one. */
  datatype RawRecord = RawRecord(
    name: string,
    merkleProof: Option<seq<string>>,
    proof: Option<seq<string>>,
    attributes: AttrField,
    rawAttributes: Option<string>)

  /** A parsed file: an array of records, or an object whose `proofs`
      member (possibly absent) holds them. */
  datatype RawData = ArrayData(records: seq<RawRecord>) | ObjectData(proofs: Option<seq<RawRecord>>)

  /** The record posted to the page. */
  datatype Record = Record(name: string, proof: Option<seq<string>>, attributes: string, attributesParsed: seq<Attribute>)

  /** A record of the array format: `merkle_proof` when present, `proof`
      otherwise; the attributes text is the unescaped raw text when found,
      the parsed string field otherwise (parsing a list throws). */
  function NormalizeArrayRecord(r: RawRecord, parse: string -> Result<seq<Attribute>, string>): (out: Result<Record, string>)
    ensures out.Ok? ==> out.value.name == r.name
    ensures out.Ok? ==> out.value.proof == (if r.merkleProof.Some? then r.merkleProof else r.proof)
    ensures r.rawAttributes.Some? ==>
              (out.Ok? <==> parse(Unescape(r.rawAttributes.value)).Ok?)
              && (out.Ok? ==> out.value.attributes == Unescape(r.rawAttributes.value)
                              && out.value.attributesParsed == parse(out.value.attributes).value)
    ensures r.rawAttributes.None? && r.attributes.AttrList? ==> out.Err?
    ensures r.rawAttributes.None? && r.attributes.AttrText? ==>
              (out.Ok? <==> parse(r.attributes.text).Ok?)
              && (out.Ok? ==> out.value.attributes == r.attributes.text
                              && out.value.attributesParsed == parse(r.attributes.text).value)
  {
    var text :=
      if r.rawAttributes.Some? then Some(Unescape(r.rawAttributes.value))
      else if r.attributes.AttrText? then Some(r.attributes.text)
      else None;
    if text.None? then Err("attributes are not a JSON string")
    else
      match parse(text.value)
      case Err(e) => Err(e)
      case Ok(parsed) =>
        Ok(Record(r.name, if r.merkleProof.Some? then r.merkleProof else r.proof, text.value, parsed))
  }

  /** A record of the object format: string attributes are kept verbatim
      and parsed; a list is kept as parsed and serialised to text. */
  function NormalizeObjectRecord(r: RawRecord, parse: string -> Result<seq<Attribute>, string>,
                                 serialize: seq<Attribute> -> string): (out: Result<Record, string>)
    ensures r.attributes.AttrList? ==>
              out == Ok(Record(r.name, r.proof, serialize(r.attributes.list), r.attributes.list))
    ensures r.attributes.AttrText? ==>
              (out.Ok? <==> parse(r.attributes.text).Ok?)
              && (out.Ok? ==> out.value == Record(r.name, r.proof, r.attributes.text, parse(r.attributes.text).value))
  {
    match r.attributes
    case AttrList(list) => Ok(Record(r.name, r.proof, serialize(list), list))
    case AttrText(text) =>
      match parse(text)
      case Err(e) => Err(e)
      case Ok(parsed) => Ok(Record(r.name, r.proof, text, parsed))
  }

  function NormalizeRecord(isArray: bool, r: RawRecord, parse: string -> Result<seq<Attribute>, string>,
                           serialize: seq<Attribute> -> string): Result<Record, string> {
    if isArray then NormalizeArrayRecord(r, parse) else NormalizeObjectRecord(r, parse, serialize)
  }

  /** The `map` over a file's records: the first record that throws makes
      the whole file fail. */
  function NormalizeAll(isArray: bool, rs: seq<RawRecord>, parse: string -> Result<seq<Attribute>, string>,
                        serialize: seq<Attribute> -> string): (out: Result<seq<Record>, string>)
    ensures out.Ok? <==> forall k :: 0 <= k < |rs| ==> NormalizeRecord(isArray, rs[k], parse, serialize).Ok?
    ensures out.Ok? ==>
              && |out.value| == |rs|
              && forall k :: 0 <= k < |rs| ==> out.value[k] == NormalizeRecord(isArray, rs[k], parse, serialize).value
    decreases |rs|
  {
    if rs == [] then Ok([])
    else
      match NormalizeRecord(isArray, rs[0], parse, serialize)
      case Err(e) => Err(e)
      case Ok(first) =>
        match NormalizeAll(isArray, rs[1..], parse, serialize)
        case Err(e) =>
          assert exists k :: 0 <= k < |rs[1..]| && NormalizeRecord(isArray, rs[1..][k], parse, serialize).Err?;
          Err(e)
        case Ok(rest) =>
          assert forall k :: 1 <= k < |rs| ==> rs[k] == rs[1..][k - 1];
          Ok([first] + rest)
  }

  /** The records of a parsed file, normalised. */
  function Normalize(data: RawData, parse: string -> Result<seq<Attribute>, string>,
                     serialize: seq<Attribute> -> string): Result<seq<Record>, string> {
    match data
    case ArrayData(records) => NormalizeAll(true, records, parse, serialize)
    case ObjectData(proofs) => NormalizeAll(false, if proofs.Some? then proofs.value else [], parse, serialize)
  }

  /** What a file gives the buffer: its normalised records, or the error
      thrown while fetching, parsing or normalising it. */
  function Prepare(f: FileLoad<RawData>, parse: string -> Result<seq<Attribute>, string>,
                   serialize: seq<Attribute> -> string): FileLoad<seq<Record>> {
    FileLoad(f.name, if f.outcome.Err? then Err(f.outcome.error) else Normalize(f.outcome.value, parse, serialize))
  }

  function PrepareAll(files: seq<FileLoad<RawData>>, parse: string -> Result<seq<Attribute>, string>,
                      serialize: seq<Attribute> -> string): (r: seq<FileLoad<seq<Record>>>)
    ensures |r| == |files|
    ensures forall k :: 0 <= k < |files| ==> r[k] == Prepare(files[k], parse, serialize)
  {
    seq(|files|, k requires 0 <= k < |files| => Prepare(files[k], parse, serialize))
  }

  // ---------------------------------------------------------------
  // The batching the loop performs, as a function of the files
  // ---------------------------------------------------------------

  /** What one file does to the batches emitted so far and the buffer: a
      failed file changes nothing; a loaded file's records join the buffer,
      which is emitted whole once it holds at least `batchSize` records. */
  function Fill<T>(posted: seq<seq<T>>, buffer: seq<T>, f: FileLoad<seq<T>>, batchSize: int)
    : (seq<seq<T>>, seq<T>)
  {
    if f.outcome.Err? then (posted, buffer)
    else if |buffer + f.outcome.value| >= batchSize then (posted + [buffer + f.outcome.value], [])
    else (posted, buffer + f.outcome.value)
  }

  /** The batches emitted over the files, and the buffer the last file leaves. */
  function Batching<T>(loads: seq<FileLoad<seq<T>>>, batchSize: int): (seq<seq<T>>, seq<T>)
    decreases |loads|
  {
    if loads == [] then ([], [])
    else
      var prev := Batching(loads[..|loads| - 1], batchSize);
      Fill(prev.0, prev.1, loads[|loads| - 1], batchSize)
  }

  /** Every batch of a run, in order: the emitted ones, then the leftover
      buffer when it is non-empty. */
  function Emitted<T>(loads: seq<FileLoad<seq<T>>>, batchSize: int): seq<seq<T>> {
    var b := Batching(loads, batchSize);
    b.0 + (if b.1 != [] then [b.1] else [])
  }

  lemma BatchingPrefix<T>(loads: seq<FileLoad<seq<T>>>, i: nat, batchSize: int)
    requires i < |loads|
    ensures Batching(loads[..i + 1], batchSize)
            == Fill(Batching(loads[..i], batchSize).0, Batching(loads[..i], batchSize).1, loads[i], batchSize)
  {
    assert loads[..i + 1][..i] == loads[..i];
  }

  /** The batching delivers every loaded record once, in file order; every
      batch it emits has reached the threshold and the buffer it leaves is
      empty or below it. */
  lemma {:induction false} BatchingSound<T>(loads: seq<FileLoad<seq<T>>>, batchSize: int)
    ensures Flatten(Batching(loads, batchSize).0) + Batching(loads, batchSize).1 == Delivered(loads)
    ensures forall k :: 0 <= k < |Batching(loads, batchSize).0| ==> |Batching(loads, batchSize).0[k]| >= batchSize
    ensures Batching(loads, batchSize).1 == [] || |Batching(loads, batchSize).1| < batchSize
    decreases |loads|
  {
    if loads != [] {
      var init, f := loads[..|loads| - 1], loads[|loads| - 1];
      BatchingSound(init, batchSize);
      assert init + [f] == loads;
      DeliveredSnoc(init, f);
      var p, b := Batching(init, batchSize).0, Batching(init, batchSize).1;
      if f.outcome.Ok? {
        var grown := b + f.outcome.value;
        assert (Flatten(p) + b) + f.outcome.value == Flatten(p) + grown;
        if |grown| >= batchSize {
          FlattenSnoc(p, grown);
        }
      }
    }
  }

  /** The batches of a run hold the loaded records in file order; all but
      the last have reached the threshold, and none is empty when the
      threshold is positive. */
  lemma EmittedSound<T>(loads: seq<FileLoad<seq<T>>>, batchSize: int)
    ensures Flatten(Emitted(loads, batchSize)) == Delivered(loads)
    ensures forall k :: 0 <= k < |Emitted(loads, batchSize)| - 1 ==> |Emitted(loads, batchSize)[k]| >= batchSize
    ensures batchSize >= 1 ==>
              forall k :: 0 <= k < |Emitted(loads, batchSize)| ==> |Emitted(loads, batchSize)[k]| > 0
  {
    BatchingSound(loads, batchSize);
    var p, b := Batching(loads, batchSize).0, Batching(loads, batchSize).1;
    if b != [] {
      FlattenSnoc(p, b);
    } else {
      assert p + [] == p;
    }
  }

  // ---------------------------------------------------------------
  // The loop
  // ---------------------------------------------------------------

  /** What holds of the messages between files: no "done" yet, every batch
      posted so far at or above the threshold (and non-empty for a positive
      threshold). */
  ghost predicate Posted<T>(msgs: seq<Msg<T>>, batchSize: int) {
    && (forall k :: 0 <= k < |msgs| ==> !msgs[k].Done?)
    && (forall k :: 0 <= k < |Batches(msgs)| ==> |Batches(msgs)[k]| >= batchSize)
    && (batchSize >= 1 ==> forall k :: 0 <= k < |Batches(msgs)| ==> |Batches(msgs)[k]| > 0)
  }

  /** What holds between files: the messages as above, and a buffer that
      is empty or below the threshold. */
  ghost predicate Between<T>(msgs: seq<Msg<T>>, buffer: seq<T>, batchSize: int) {
    Posted(msgs, batchSize) && (buffer == [] || |buffer| < batchSize)
  }

  /** Posting a buffer that reached the threshold keeps every posted batch
      at or above it. */
  lemma PostFlush<T>(msgs: seq<Msg<T>>, buffer: seq<T>, batchSize: int)
    requires Posted(msgs, batchSize)
    requires |buffer| >= batchSize
    ensures Posted(msgs + [Batch(buffer)], batchSize)
    ensures Batches(msgs + [Batch(buffer)]) == Batches(msgs) + [buffer]
    ensures Flatten(Batches(msgs + [Batch(buffer)])) == Flatten(Batches(msgs)) + buffer
    ensures ErrorFiles(msgs + [Batch(buffer)]) == ErrorFiles(msgs)
  {
    PostBatch(msgs, buffer);
    var m := msgs + [Batch(buffer)];
    var before := Batches(msgs);
    var after := Batches(m);
    assert after == before + [buffer];
    forall k | 0 <= k < |m| ensures !m[k].Done? {
      if k < |msgs| {
        assert m[k] == msgs[k];
      }
    }
    forall k | 0 <= k < |after| ensures |after[k]| >= batchSize && (batchSize >= 1 ==> |after[k]| > 0) {
      if k < |before| {
        assert after[k] == before[k];
      }
    }
  }

  /** Posting an error keeps what holds between files and names the file. */
  lemma PostError<T>(msgs: seq<Msg<T>>, name: string, error: string, batchSize: int)
    requires Posted(msgs, batchSize)
    ensures Posted(msgs + [Error(name, error)], batchSize)
    ensures Batches(msgs + [Error(name, error)]) == Batches(msgs)
    ensures ErrorFiles(msgs + [Error(name, error)]) == ErrorFiles(msgs) + [name]
  {
    PostOther(msgs, Error(name, error));
    var m := msgs + [Error(name, error)];
    assert forall k :: 0 <= k < |msgs| ==> m[k] == msgs[k];
  }

  /** A file that loaded: its records join the buffer, which is posted and
      emptied once it has reached `batchSize`. */
  method AddRecords<T>(msgs0: seq<Msg<T>>, buffer0: seq<T>, records: seq<T>, batchSize: int)
    returns (msgs: seq<Msg<T>>, buffer: seq<T>)
    requires Posted(msgs0, batchSize)
    ensures Posted(msgs, batchSize) && (buffer == [] || |buffer| < batchSize)
    ensures |buffer0 + records| >= batchSize ==> msgs == msgs0 + [Batch(buffer0 + records)] && buffer == []
    ensures |buffer0 + records| < batchSize ==> msgs == msgs0 && buffer == buffer0 + records
    ensures Flatten(Batches(msgs)) + buffer == (Flatten(Batches(msgs0)) + buffer0) + records
    ensures ErrorFiles(msgs) == ErrorFiles(msgs0)
  {
    msgs := msgs0;
    buffer := buffer0 + records;
    if |buffer| >= batchSize {
      PostFlush(msgs, buffer, batchSize);
      msgs := msgs + [Batch(buffer)];
      buffer := [];
    }
  }

  /** One file: a failure posts an "error" message; otherwise its records
      are added. */
  method Step<T>(msgs0: seq<Msg<T>>, buffer0: seq<T>, f: FileLoad<seq<T>>, batchSize: int)
    returns (msgs: seq<Msg<T>>, buffer: seq<T>)
    requires Between(msgs0, buffer0, batchSize)
    ensures Between(msgs, buffer, batchSize)
    ensures (Batches(msgs), buffer) == Fill(Batches(msgs0), buffer0, f, batchSize)
    ensures Flatten(Batches(msgs)) + buffer
            == (Flatten(Batches(msgs0)) + buffer0) + (if f.outcome.Ok? then f.outcome.value else [])
    ensures ErrorFiles(msgs) == ErrorFiles(msgs0) + (if f.outcome.Err? then [f.name] else [])
  {
    if f.outcome.Err? {
      PostError(msgs0, f.name, f.outcome.error, batchSize);
      msgs, buffer := msgs0 + [Error(f.name, f.outcome.error)], buffer0;
      assert (Flatten(Batches(msgs0)) + buffer0) + [] == Flatten(Batches(msgs0)) + buffer0;
    } else {
      msgs, buffer := AddRecords(msgs0, buffer0, f.outcome.value, batchSize);
      if |buffer0 + f.outcome.value| >= batchSize {
        PostBatch(msgs0, buffer0 + f.outcome.value);
      }
    }
  }

  /** After the last file: a non-empty buffer is posted, then "done". */
  method Finish<T>(msgs0: seq<Msg<T>>, buffer: seq<T>, batchSize: int) returns (msgs: seq<Msg<T>>)
    requires Posted(msgs0, batchSize)
    ensures Batches(msgs) == Batches(msgs0) + (if buffer != [] then [buffer] else [])
    ensures Flatten(Batches(msgs)) == Flatten(Batches(msgs0)) + buffer
    ensures ErrorFiles(msgs) == ErrorFiles(msgs0)
    ensures EndsWithDone(msgs)
    ensures forall k :: 0 <= k < |Batches(msgs)| - 1 ==> |Batches(msgs)[k]| >= batchSize
    ensures batchSize >= 1 ==> forall k :: 0 <= k < |Batches(msgs)| ==> |Batches(msgs)[k]| > 0
  {
    msgs := msgs0;
    if |buffer| > 0 {
      PostBatch(msgs, buffer);
      var m := msgs + [Batch(buffer)];
      assert forall k :: 0 <= k < |msgs| ==> m[k] == msgs[k];
      msgs := m;
    } else {
      assert Batches(msgs) + [] == Batches(msgs);
      assert Flatten(Batches(msgs)) + buffer == Flatten(Batches(msgs));
    }
    PostDone(msgs);
    msgs := msgs + [Done];
  }

  /** The loop over the files, given what each file gives the buffer: its
      batches are exactly those of `Batching`. */
  method Deliver<T>(loads: seq<FileLoad<seq<T>>>, batchSize: int) returns (msgs: seq<Msg<T>>)
    ensures Batches(msgs) == Emitted(loads, batchSize)
    ensures Flatten(Batches(msgs)) == Delivered(loads)
    ensures ErrorFiles(msgs) == FailedFiles(loads)
    ensures EndsWithDone(msgs)
    ensures forall k :: 0 <= k < |Batches(msgs)| - 1 ==> |Batches(msgs)[k]| >= batchSize
    ensures batchSize >= 1 ==> forall k :: 0 <= k < |Batches(msgs)| ==> |Batches(msgs)[k]| > 0
  {
    msgs := [];
    var buffer: seq<T> := [];
    var i := 0;
    while i < |loads|
      invariant 0 <= i <= |loads|
      invariant (Batches(msgs), buffer) == Batching(loads[..i], batchSize)
      invariant Flatten(Batches(msgs)) + buffer == Delivered(loads[..i])
      invariant ErrorFiles(msgs) == FailedFiles(loads[..i])
      invariant Between(msgs, buffer, batchSize)
    {
      LoadedPrefix(loads, i);
      BatchingPrefix(loads, i, batchSize);
      msgs, buffer := Step(msgs, buffer, loads[i], batchSize);
      i := i + 1;
    }
    assert loads[..i] == loads;
    msgs := Finish(msgs, buffer, batchSize);
  }

  /** The `batchSize` the message carries, or the default when it carries none. */
  function BatchSizeOf(requested: Option<int>): int {
    if requested.Some? then requested.value else DEFAULT_BATCH_SIZE
  }

  /** The worker's `onmessage`, given what fetching and parsing each file
      gave. Normalising a file depends on nothing but the file, so it is
      done for every file before the loop that fills and posts the buffer. */
  method Run(files: seq<FileLoad<RawData>>, requested: Option<int>, parse: string -> Result<seq<Attribute>, string>,
             serialize: seq<Attribute> -> string) returns (msgs: seq<Msg<Record>>)
    ensures Batches(msgs) == Emitted(PrepareAll(files, parse, serialize), BatchSizeOf(requested))
    ensures Flatten(Batches(msgs)) == Delivered(PrepareAll(files, parse, serialize))
    ensures ErrorFiles(msgs) == FailedFiles(PrepareAll(files, parse, serialize))
    ensures EndsWithDone(msgs)
    ensures forall k :: 0 <= k < |Batches(msgs)| - 1 ==> |Batches(msgs)[k]| >= BatchSizeOf(requested)
    ensures BatchSizeOf(requested) >= 1 ==> forall k :: 0 <= k < |Batches(msgs)| ==> |Batches(msgs)[k]| > 0
  {
    var loads := PrepareAll(files, parse, serialize);
    msgs := Deliver(loads, BatchSizeOf(requested));
  }
}
