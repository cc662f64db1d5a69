/** Result batches across the C boundary: flattened into tables on the Rust side
    (rust-core/src/ffi.rs) and read back by the bridge (app/cpp/RustCoreBridge.cpp).
    A pointer is an index into the table it points into; null is None. */
module Marshalling {
  import opened Wrappers

  type Bytes = seq<bv8>
  type Ptr = Option<nat>

  // ---------------------------------------------------------------------------
  // C strings.
  // ---------------------------------------------------------------------------

  /** `replace('\0', "?")`. */
  function Clean(s: string): (r: string)
    ensures |r| == |s| && '\0' !in r
  {
    seq(|s|, i requires 0 <= i < |s| => if s[i] == '\0' then '?' else s[i])
  }

  /** The characters in memory, terminator included. */
  function CString(s: string): string { Clean(s) + "\0" }

  /** Reading up to the terminator. */
  function ReadCString(mem: string): string {
    if mem == "" || mem[0] == '\0' then "" else [mem[0]] + ReadCString(mem[1..])
  }

  lemma {:induction false} ReadsUpToNul(s: string)
    requires '\0' !in s
    ensures ReadCString(s + "\0") == s
    decreases |s|
  {
    if s != "" {
      assert s[0] in s;
      assert (s + "\0")[1..] == s[1..] + "\0";
      ReadsUpToNul(s[1..]);
    }
  }

  /** A string comes back unchanged exactly if it has no NUL. */
  lemma CStringRoundTrip(s: string)
    ensures ReadCString(CString(s)) == Clean(s)
    ensures |Clean(s)| == |s| && forall i | 0 <= i < |s| :: Clean(s)[i] == if s[i] == '\0' then '?' else s[i]
    ensures Clean(s) == s <==> '\0' !in s
  {
    ReadsUpToNul(Clean(s));
    if '\0' !in s {
      assert forall i | 0 <= i < |s| :: s[i] in s && Clean(s)[i] == s[i];
    }
  }

  predicate In<T>(p: Ptr, table: seq<T>) { p.Some? ==> p.value < |table| }

  function Text(p: Ptr, strings: seq<string>): string
    requires In(p, strings)
  {
    if p.Some? then ReadCString(strings[p.value]) else ""
  }

  // ---------------------------------------------------------------------------
  // File results.
  // ---------------------------------------------------------------------------

  datatype FileKind = File | Directory | Symlink | Other

  datatype FileEntry = FileEntry(
    name: string, path: string, kind: FileKind, size: nat, modified: int, mode: nat, editable: bool)

  datatype FilePayload =
    | Listing(entries: seq<FileEntry>) | Content(bytes: Bytes) | Done | Failure(code: int, message: string)

  datatype FileResult = FileResult(id: nat, payload: FilePayload)

  /** What crosses the boundary. */
  datatype CEntry = CEntry(name: Ptr, path: Ptr, kind: int, size: nat, modified: int, mode: nat, editable: bool)

  datatype CFileResult = CFileResult(
    id: nat, kind: int, entries: Ptr, entryCount: nat, data: Ptr, dataLen: nat, code: int, message: Ptr)

  /** The backing storage and the result array handed to the callback. */
  datatype FileBatch = FileBatch(
    strings: seq<string>, buffers: seq<Bytes>, arrays: seq<seq<CEntry>>, results: seq<CFileResult>)

  /** What the bridge makes of it. */
  datatype FsEntry = FsEntry(name: string, path: string, kind: int, size: nat, modified: int, editable: bool)

  datatype FsResult = FsResult(id: nat, kind: int, entries: seq<FsEntry>, data: Bytes, code: int, message: string)

  const LISTING := 0
  const CONTENT := 1
  const DONE := 2
  const FAILURE := 3

  function KindCode(k: FileKind): int {
    match k
    case File => 0
    case Directory => 1
    case Symlink => 2
    case Other => 3
  }

  /** The entry the other side should see: everything but the mode, NULs replaced. */
  function SeenEntry(e: FileEntry): FsEntry {
    FsEntry(Clean(e.name), Clean(e.path), KindCode(e.kind), e.size, e.modified, e.editable)
  }

  function SeenEntries(es: seq<FileEntry>): seq<FsEntry> {
    seq(|es|, i requires 0 <= i < |es| => SeenEntry(es[i]))
  }

  function Seen(r: FileResult): FsResult {
    match r.payload
    case Listing(es) => FsResult(r.id, LISTING, SeenEntries(es), [], 0, "")
    case Content(bytes) => FsResult(r.id, CONTENT, [], bytes, 0, "")
    case Done => FsResult(r.id, DONE, [], [], 0, "")
    case Failure(code, message) => FsResult(r.id, FAILURE, [], [], code, Clean(message))
  }

  // The indices kept between the passes.

  datatype EntryIdx = EntryIdx(name: nat, path: nat, kind: int, size: nat, modified: int, mode: nat, editable: bool)

  datatype Rec = RListing(idxs: seq<EntryIdx>) | RContent(buffer: nat) | RDone | RFailure(code: int, message: nat)

  /** `i` points at the strings of `e`. */
  ghost predicate EntryHeld(i: EntryIdx, e: FileEntry, strings: seq<string>) {
    && i.name < |strings| && strings[i.name] == CString(e.name)
    && i.path < |strings| && strings[i.path] == CString(e.path)
    && i.kind == KindCode(e.kind) && i.size == e.size && i.modified == e.modified
    && i.mode == e.mode && i.editable == e.editable
  }

  ghost predicate EntriesHeld(idxs: seq<EntryIdx>, es: seq<FileEntry>, strings: seq<string>) {
    |idxs| == |es| && forall j | 0 <= j < |es| :: EntryHeld(idxs[j], es[j], strings)
  }

  /** `rec` points at the payload's own strings and buffers. */
  ghost predicate Held(rec: Rec, p: FilePayload, strings: seq<string>, buffers: seq<Bytes>) {
    match p
    case Listing(es) => rec.RListing? && EntriesHeld(rec.idxs, es, strings)
    case Content(bytes) => rec.RContent? && rec.buffer < |buffers| && buffers[rec.buffer] == bytes
    case Done => rec.RDone?
    case Failure(code, message) =>
      rec.RFailure? && rec.code == code && rec.message < |strings| && strings[rec.message] == CString(message)
  }

  /** Growing the tables invalidates no index. */
  lemma HeldStays(rec: Rec, p: FilePayload, strings: seq<string>, buffers: seq<Bytes>, strings': seq<string>,
                  buffers': seq<Bytes>)
    requires Held(rec, p, strings, buffers) && strings <= strings' && buffers <= buffers'
    ensures Held(rec, p, strings', buffers')
  {
  }

  method HoldEntries(es: seq<FileEntry>, strings: seq<string>) returns (idxs: seq<EntryIdx>, strings': seq<string>)
    ensures strings <= strings' && EntriesHeld(idxs, es, strings')
  {
    idxs, strings' := [], strings;
    for i := 0 to |es|
      invariant strings <= strings' && EntriesHeld(idxs, es[..i], strings')
    {
      var e := es[i];
      strings' := strings' + [CString(e.name)];
      var name := |strings'| - 1;
      strings' := strings' + [CString(e.path)];
      var path := |strings'| - 1;
      idxs := idxs + [EntryIdx(name, path, KindCode(e.kind), e.size, e.modified, e.mode, e.editable)];
    }
    assert es[..|es|] == es;
  }

  method HoldPayload(p: FilePayload, strings: seq<string>, buffers: seq<Bytes>)
    returns (rec: Rec, strings': seq<string>, buffers': seq<Bytes>)
    ensures strings <= strings' && buffers <= buffers' && Held(rec, p, strings', buffers')
  {
    strings', buffers' := strings, buffers;
    match p
    case Listing(es) =>
      var idxs;
      idxs, strings' := HoldEntries(es, strings);
      rec := RListing(idxs);
    case Content(bytes) =>
      buffers' := buffers + [bytes];
      rec := RContent(|buffers'| - 1);
    case Done => rec := RDone;
    case Failure(code, message) =>
      strings' := strings + [CString(message)];
      rec := RFailure(code, |strings'| - 1);
  }

  function EntryOf(i: EntryIdx): CEntry {
    CEntry(Some(i.name), Some(i.path), i.kind, i.size, i.modified, i.mode, i.editable)
  }

  function EntriesOf(rec: Rec): seq<CEntry> {
    if rec.RListing? then seq(|rec.idxs|, j requires 0 <= j < |rec.idxs| => EntryOf(rec.idxs[j])) else []
  }

  function ResultOf(id: nat, rec: Rec, i: nat, count: nat, len: nat): CFileResult {
    match rec
    case RListing(_) => CFileResult(id, LISTING, Some(i), count, None, 0, 0, None)
    case RContent(b) => CFileResult(id, CONTENT, None, 0, Some(b), len, 0, None)
    case RDone => CFileResult(id, DONE, None, 0, None, 0, 0, None)
    case RFailure(code, m) => CFileResult(id, FAILURE, None, 0, None, 0, code, Some(m))
  }

  /** What the callback's reader relies on: every pointer and every length is good. */
  ghost predicate EntryReadable(e: CEntry, strings: seq<string>) { In(e.name, strings) && In(e.path, strings) }

  ghost predicate Readable(r: CFileResult, b: FileBatch) {
    && In(r.message, b.strings)
    && (r.data.Some? ==> r.data.value < |b.buffers| && r.dataLen <= |b.buffers[r.data.value]|)
    && (r.entries.Some? ==>
          && r.entries.value < |b.arrays| && r.entryCount <= |b.arrays[r.entries.value]|
          && forall j | 0 <= j < |b.arrays[r.entries.value]| :: EntryReadable(b.arrays[r.entries.value][j], b.strings))
  }

  function ReadEntry(e: CEntry, strings: seq<string>): FsEntry
    requires In(e.name, strings) && In(e.path, strings)
  {
    FsEntry(Text(e.name, strings), Text(e.path, strings), e.kind, e.size, e.modified, e.editable)
  }

  ghost function Read(r: CFileResult, b: FileBatch): FsResult
    requires Readable(r, b)
  {
    var entries :=
      if r.kind == LISTING && r.entries.Some? then
        var row := b.arrays[r.entries.value];
        seq(r.entryCount, j requires 0 <= j < r.entryCount => ReadEntry(row[j], b.strings))
      else [];
    var data :=
      if r.kind == CONTENT && r.data.Some? && r.dataLen > 0 then b.buffers[r.data.value][..r.dataLen] else [];
    var message := if r.kind == FAILURE && r.message.Some? then Text(r.message, b.strings) else "";
    FsResult(r.id, r.kind, entries, data, r.code, message)
  }

  /** A built result is readable and reads as what the other side should see. */
  lemma BuiltReadsBack(r: FileResult, rec: Rec, i: nat, len: nat, b: FileBatch)
    requires Held(rec, r.payload, b.strings, b.buffers)
    requires i < |b.arrays| && b.arrays[i] == EntriesOf(rec)
    requires len == LengthOf(rec, b.buffers)
    ensures var c := ResultOf(r.id, rec, i, |b.arrays[i]|, len); Readable(c, b) && Read(c, b) == Seen(r)
  {
    var c := ResultOf(r.id, rec, i, |b.arrays[i]|, len);
    match r.payload
    case Listing(es) =>
      forall j | 0 <= j < |es|
        ensures EntryReadable(b.arrays[i][j], b.strings)
        ensures ReadEntry(b.arrays[i][j], b.strings) == SeenEntry(es[j])
      {
        assert EntryHeld(rec.idxs[j], es[j], b.strings);
        CStringRoundTrip(es[j].name);
        CStringRoundTrip(es[j].path);
      }
      assert Read(c, b).entries == SeenEntries(es);
    case Content(bytes) =>
      assert b.buffers[rec.buffer][..len] == bytes;
    case Done =>
    case Failure(_, message) => CStringRoundTrip(message);
  }

  /** The three passes of the file emitter. */
  method FlattenFileResults(results: seq<FileResult>) returns (b: FileBatch)
    ensures |b.results| == |results|
    ensures forall i | 0 <= i < |results| :: Readable(b.results[i], b) && Read(b.results[i], b) == Seen(results[i])
  {
    hide Held, Readable, Read, Seen, EntriesOf, ResultOf;
    var strings: seq<string>, buffers: seq<Bytes>, recs: seq<(nat, Rec)> := [], [], [];
    for i := 0 to |results|
      invariant |recs| == i
      invariant forall k | 0 <= k < i ::
          recs[k].0 == results[k].id && Held(recs[k].1, results[k].payload, strings, buffers)
    {
      var rec, strings', buffers' := HoldPayload(results[i].payload, strings, buffers);
      forall k | 0 <= k < i ensures Held(recs[k].1, results[k].payload, strings', buffers') {
        HeldStays(recs[k].1, results[k].payload, strings, buffers, strings', buffers');
      }
      strings, buffers, recs := strings', buffers', recs + [(results[i].id, rec)];
    }

    var arrays: seq<seq<CEntry>> := [];
    for i := 0 to |recs|
      invariant |arrays| == i && forall k | 0 <= k < i :: arrays[k] == EntriesOf(recs[k].1)
    {
      arrays := arrays + [EntriesOf(recs[i].1)];
    }

    var out: seq<CFileResult> := [];
    for i := 0 to |recs|
      invariant |out| == i
      invariant forall k | 0 <= k < i :: out[k] == Final(recs[k], k, arrays, buffers)
    {
      assert Held(recs[i].1, results[i].payload, strings, buffers);
      out := out + [Final(recs[i], i, arrays, buffers)];
    }
    b := FileBatch(strings, buffers, arrays, out);
    forall i | 0 <= i < |results| ensures Readable(out[i], b) && Read(out[i], b) == Seen(results[i]) {
      var rec := recs[i].1;
      BuiltReadsBack(results[i], rec, i, LengthOf(rec, buffers), b);
    }
  }

  function Final(rec: (nat, Rec), i: nat, arrays: seq<seq<CEntry>>, buffers: seq<Bytes>): CFileResult {
    ResultOf(rec.0, rec.1, i, if i < |arrays| then |arrays[i]| else 0,
             LengthOf(rec.1, buffers))
  }

  function LengthOf(rec: Rec, buffers: seq<Bytes>): nat {
    if rec.RContent? && rec.buffer < |buffers| then |buffers[rec.buffer]| else 0
  }

  /** The bridge's loop over the result array. */
  method DecodeFileResults(b: FileBatch) returns (out: seq<FsResult>)
    requires forall i | 0 <= i < |b.results| :: Readable(b.results[i], b)
    ensures |out| == |b.results| && forall i | 0 <= i < |out| :: out[i] == Read(b.results[i], b)
  {
    out := [];
    for i := 0 to |b.results|
      invariant |out| == i && forall k | 0 <= k < i :: out[k] == Read(b.results[k], b)
    {
      var r := b.results[i];
      var entries, data, message := [], [], "";
      if r.kind == LISTING && r.entries.Some? {
        var row := b.arrays[r.entries.value];
        for j := 0 to r.entryCount
          invariant |entries| == j
          invariant forall k | 0 <= k < j ::
                      && In(row[k].name, b.strings) && In(row[k].path, b.strings)
                      && entries[k] == ReadEntry(row[k], b.strings)
        {
          assert EntryReadable(row[j], b.strings);
          entries := entries + [ReadEntry(row[j], b.strings)];
        }
      } else if r.kind == CONTENT && r.data.Some? && r.dataLen > 0 {
        data := b.buffers[r.data.value][..r.dataLen];
      } else if r.kind == FAILURE && r.message.Some? {
        message := Text(r.message, b.strings);
      }
      assert entries == Read(r, b).entries;
      out := out + [FsResult(r.id, r.kind, entries, data, r.code, message)];
    }
  }

  /** A batch of file results arrives in order and complete, NULs replaced and modes dropped. */
  method FileRoundTrip(results: seq<FileResult>) returns (out: seq<FsResult>)
    ensures |out| == |results| && forall i | 0 <= i < |out| :: out[i] == Seen(results[i])
    ensures forall i | 0 <= i < |out| :: out[i].id == results[i].id
    ensures forall i | 0 <= i < |out| && results[i].payload.Listing? ::
              var es := results[i].payload.entries;
              && out[i].kind == 0 && |out[i].entries| == |es|
              && out[i].data == [] && out[i].code == 0 && out[i].message == ""
    ensures forall i, j | 0 <= i < |out| && results[i].payload.Listing? && 0 <= j < |results[i].payload.entries| ::
              var e, x := results[i].payload.entries[j], out[i].entries[j];
              && x.name == Clean(e.name) && x.path == Clean(e.path) && x.size == e.size
              && x.modified == e.modified && x.editable == e.editable
              && (e.kind.File? ==> x.kind == 0) && (e.kind.Directory? ==> x.kind == 1)
              && (e.kind.Symlink? ==> x.kind == 2) && (e.kind.Other? ==> x.kind == 3)
    ensures forall i | 0 <= i < |out| && results[i].payload.Content? ::
              out[i].kind == 1 && out[i].data == results[i].payload.bytes && out[i].entries == [] && out[i].code == 0
    ensures forall i | 0 <= i < |out| && results[i].payload.Done? ::
              out[i].kind == 2 && out[i].entries == [] && out[i].data == [] && out[i].code == 0
    ensures forall i | 0 <= i < |out| && results[i].payload.Failure? ::
              && out[i].kind == 3 && out[i].code == results[i].payload.code
              && out[i].message == Clean(results[i].payload.message) && out[i].entries == [] && out[i].data == []
  {
    var b := FlattenFileResults(results);
    out := DecodeFileResults(b);
  }

  /** What the bridge reads in the record's fields. */
  lemma ReadIs(r: CFileResult, b: FileBatch, j: nat)
    requires Readable(r, b)
    ensures var x := Read(r, b);
            && x.id == r.id && x.kind == r.kind && x.code == r.code
            && (r.kind == 1 && r.data.Some? ==> x.data == b.buffers[r.data.value][..r.dataLen])
            && (r.kind == 3 && r.message.Some? ==> x.message == ReadCString(b.strings[r.message.value]))
            && (r.kind == 0 && r.entries.Some? ==> |x.entries| == r.entryCount)
            && (r.kind == 0 && r.entries.Some? && j < r.entryCount ==>
                  var e := b.arrays[r.entries.value][j];
                  && x.entries[j].kind == e.kind && x.entries[j].size == e.size
                  && x.entries[j].modified == e.modified && x.entries[j].editable == e.editable
                  && (e.name.Some? ==>
                        e.name.value < |b.strings| && x.entries[j].name == ReadCString(b.strings[e.name.value]))
                  && (e.path.Some? ==>
                        e.path.value < |b.strings| && x.entries[j].path == ReadCString(b.strings[e.path.value])))
  {
    if r.kind == 0 && r.entries.Some? && j < r.entryCount {
      assert EntryReadable(b.arrays[r.entries.value][j], b.strings);
    }
  }

  /** Nothing else is lost: results that look alike over there agree but for modes and NULs. */
  lemma SeenIsFaithful(a: FileResult, b: FileResult)
    requires Seen(a) == Seen(b)
    ensures a.id == b.id
    ensures a.payload.Done? <==> b.payload.Done?
    ensures a.payload.Content? ==> b.payload == a.payload
    ensures a.payload.Failure? ==>
              b.payload.Failure? && b.payload.code == a.payload.code
                  && Clean(b.payload.message) == Clean(a.payload.message)
    ensures a.payload.Listing? ==>
              && b.payload.Listing? && |b.payload.entries| == |a.payload.entries|
              && forall i | 0 <= i < |a.payload.entries| ::
                   var x, y := a.payload.entries[i], b.payload.entries[i];
                   Clean(x.name) == Clean(y.name) && Clean(x.path) == Clean(y.path) && x.kind == y.kind
                   && x.size == y.size && x.modified == y.modified && x.editable == y.editable
  {
    if a.payload.Listing? {
      forall i | 0 <= i < |a.payload.entries|
        ensures SeenEntry(a.payload.entries[i]) == SeenEntry(b.payload.entries[i])
      {
        assert SeenEntries(a.payload.entries)[i] == SeenEntries(b.payload.entries)[i];
      }
    }
  }

  // ---------------------------------------------------------------------------
  // Command results.
  // ---------------------------------------------------------------------------

  datatype ExecPayload = Output(stdout: Bytes, stderr: Bytes, exitStatus: int) | ExecFailure(code: int, message: string)

  datatype ExecResult = ExecResult(id: nat, payload: ExecPayload)

  datatype CExecResult = CExecResult(
    id: nat, kind: int, stdout: Ptr, stdoutLen: nat, stderr: Ptr, stderrLen: nat,
    exitStatus: int, code: int, message: Ptr)

  datatype ExecBatch = ExecBatch(strings: seq<string>, buffers: seq<Bytes>, results: seq<CExecResult>)

  datatype SeenExec = SeenExec(
    id: nat, kind: int, stdout: Bytes, stderr: Bytes, exitStatus: int, code: int, message: string)

  datatype ExecRec = XOutput(stdout: nat, stderr: nat, exitStatus: int) | XFailure(code: int, message: nat)

  function SeenCommand(r: ExecResult): SeenExec {
    match r.payload
    case Output(stdout, stderr, exitStatus) => SeenExec(r.id, 0, stdout, stderr, exitStatus, 0, "")
    case ExecFailure(code, message) => SeenExec(r.id, 1, [], [], -1, code, Clean(message))
  }

  ghost predicate ExecHeld(rec: ExecRec, p: ExecPayload, strings: seq<string>, buffers: seq<Bytes>) {
    match p
    case Output(stdout, stderr, exitStatus) =>
      && rec.XOutput? && rec.exitStatus == exitStatus
      && rec.stdout < |buffers| && buffers[rec.stdout] == stdout
      && rec.stderr < |buffers| && buffers[rec.stderr] == stderr
    case ExecFailure(code, message) =>
      rec.XFailure? && rec.code == code && rec.message < |strings| && strings[rec.message] == CString(message)
  }

  ghost predicate BufferReadable(p: Ptr, len: nat, buffers: seq<Bytes>) {
    p.Some? ==> p.value < |buffers| && len <= |buffers[p.value]|
  }

  ghost predicate ExecReadable(r: CExecResult, b: ExecBatch) {
    && In(r.message, b.strings)
    && BufferReadable(r.stdout, r.stdoutLen, b.buffers) && BufferReadable(r.stderr, r.stderrLen, b.buffers)
  }

  function Buffer(p: Ptr, len: nat, buffers: seq<Bytes>): Bytes
    requires p.Some? ==> p.value < |buffers| && len <= |buffers[p.value]|
  {
    if p.Some? && len > 0 then buffers[p.value][..len] else []
  }

  ghost function ReadExec(r: CExecResult, b: ExecBatch): SeenExec
    requires ExecReadable(r, b)
  {
    SeenExec(r.id, r.kind, Buffer(r.stdout, r.stdoutLen, b.buffers), Buffer(r.stderr, r.stderrLen, b.buffers),
             r.exitStatus, r.code, Text(r.message, b.strings))
  }

  method FlattenExecResults(results: seq<ExecResult>) returns (b: ExecBatch)
    ensures |b.results| == |results|
    ensures forall i | 0 <= i < |results| ::
        ExecReadable(b.results[i], b) && ReadExec(b.results[i], b) == SeenCommand(results[i])
  {
    var strings: seq<string>, buffers: seq<Bytes>, recs: seq<(nat, ExecRec)> := [], [], [];
    for i := 0 to |results|
      invariant |recs| == i
      invariant forall k | 0 <= k < i ::
          recs[k].0 == results[k].id && ExecHeld(recs[k].1, results[k].payload, strings, buffers)
    {
      var rec;
      match results[i].payload {
        case Output(stdout, stderr, exitStatus) =>
          buffers := buffers + [stdout];
          var o := |buffers| - 1;
          buffers := buffers + [stderr];
          rec := XOutput(o, |buffers| - 1, exitStatus);
        case ExecFailure(code, message) =>
          strings := strings + [CString(message)];
          rec := XFailure(code, |strings| - 1);
      }
      recs := recs + [(results[i].id, rec)];
    }

    var out: seq<CExecResult> := [];
    for i := 0 to |recs|
      invariant |out| == i
      invariant forall k | 0 <= k < i ::
                  var c := ExecBatch(strings, buffers, []);
                  ExecReadable(out[k], c) && ReadExec(out[k], c) == SeenCommand(results[k])
    {
      ghost var c := ExecBatch(strings, buffers, []);
      var (id, rec) := recs[i];
      assert ExecHeld(rec, results[i].payload, strings, buffers);
      var r;
      match rec {
        case XOutput(o, e, exitStatus) =>
          r := CExecResult(id, 0, Some(o), |buffers[o]|, Some(e), |buffers[e]|, exitStatus, 0, None);
          assert buffers[o][..|buffers[o]|] == buffers[o] && buffers[e][..|buffers[e]|] == buffers[e];
        case XFailure(code, m) =>
          r := CExecResult(id, 1, None, 0, None, 0, -1, code, Some(m));
          CStringRoundTrip(results[i].payload.message);
      }
      out := out + [r];
    }
    b := ExecBatch(strings, buffers, out);
    forall i | 0 <= i < |results| ensures ExecReadable(out[i], b) && ReadExec(out[i], b) == SeenCommand(results[i]) {
      assert ExecReadable(out[i], ExecBatch(strings, buffers, []));
    }
  }

  method DecodeExecResults(b: ExecBatch) returns (out: seq<SeenExec>)
    requires forall i | 0 <= i < |b.results| :: ExecReadable(b.results[i], b)
    ensures |out| == |b.results| && forall i | 0 <= i < |out| :: out[i] == ReadExec(b.results[i], b)
  {
    out := [];
    for i := 0 to |b.results|
      invariant |out| == i && forall k | 0 <= k < i :: out[k] == ReadExec(b.results[k], b)
    {
      var r := b.results[i];
      assert ExecReadable(r, b);
      var stdout: Bytes, stderr: Bytes, message := [], [], "";
      if r.stdout.Some? && r.stdoutLen > 0 { stdout := b.buffers[r.stdout.value][..r.stdoutLen]; }
      if r.stderr.Some? && r.stderrLen > 0 { stderr := b.buffers[r.stderr.value][..r.stderrLen]; }
      if r.message.Some? { message := Text(r.message, b.strings); }
      out := out + [SeenExec(r.id, r.kind, stdout, stderr, r.exitStatus, r.code, message)];
    }
  }

  method ExecRoundTrip(results: seq<ExecResult>) returns (out: seq<SeenExec>)
    ensures |out| == |results| && forall i | 0 <= i < |out| :: out[i] == SeenCommand(results[i])
    ensures forall i | 0 <= i < |out| :: out[i].id == results[i].id
    ensures forall i | 0 <= i < |out| && results[i].payload.Output? ::
              && out[i].kind == 0
              && out[i].stdout == results[i].payload.stdout && out[i].stderr == results[i].payload.stderr
              && out[i].exitStatus == results[i].payload.exitStatus && out[i].code == 0 && out[i].message == ""
    ensures forall i | 0 <= i < |out| && results[i].payload.ExecFailure? ::
              && out[i].kind == 1 && out[i].stdout == [] && out[i].stderr == [] && out[i].exitStatus == -1
              && out[i].code == results[i].payload.code && out[i].message == Clean(results[i].payload.message)
  {
    var b := FlattenExecResults(results);
    out := DecodeExecResults(b);
  }

  /** What the bridge reads in the record's fields. */
  lemma ReadExecIs(r: CExecResult, b: ExecBatch)
    requires ExecReadable(r, b)
    ensures var x := ReadExec(r, b);
            && x.id == r.id && x.kind == r.kind && x.exitStatus == r.exitStatus && x.code == r.code
            && (r.stdout.Some? ==> x.stdout == b.buffers[r.stdout.value][..r.stdoutLen])
            && (r.stderr.Some? ==> x.stderr == b.buffers[r.stderr.value][..r.stderrLen])
            && (r.message.Some? ==> x.message == ReadCString(b.strings[r.message.value]))
  {
  }

  // ---------------------------------------------------------------------------
  // Session events.
  // ---------------------------------------------------------------------------

  datatype SessionEvent =
    | StateChanged(state: int) | Data(bytes: Bytes) | Error(code: int, message: string)
    | HostKeyPrompt(fingerprint: string)

  datatype CEvent = CEvent(kind: int, state: int, code: int, data: Ptr, dataLen: nat, message: Ptr)

  datatype EventBatch = EventBatch(strings: seq<string>, buffers: seq<Bytes>, events: seq<CEvent>)

  datatype RustEvent = RustEvent(kind: int, state: int, code: int, data: Bytes, message: string)

  datatype EventRec = EState(state: int) | EData(buffer: nat) | EError(code: int, message: nat) | EHostKey(message: nat)

  const STATE_CHANGED := 0
  const DATA := 1
  const ERROR := 2
  const HOST_KEY := 3

  function SeenEvent(e: SessionEvent): RustEvent {
    match e
    case StateChanged(state) => RustEvent(STATE_CHANGED, state, 0, [], "")
    case Data(bytes) => RustEvent(DATA, 0, 0, bytes, "")
    case Error(code, message) => RustEvent(ERROR, 0, code, [], Clean(message))
    case HostKeyPrompt(fingerprint) => RustEvent(HOST_KEY, 0, 0, [], Clean(fingerprint))
  }

  ghost predicate EventHeld(rec: EventRec, e: SessionEvent, strings: seq<string>, buffers: seq<Bytes>) {
    match e
    case StateChanged(state) => rec == EState(state)
    case Data(bytes) => rec.EData? && rec.buffer < |buffers| && buffers[rec.buffer] == bytes
    case Error(code, message) =>
      rec.EError? && rec.code == code && rec.message < |strings| && strings[rec.message] == CString(message)
    case HostKeyPrompt(fingerprint) =>
      rec.EHostKey? && rec.message < |strings| && strings[rec.message] == CString(fingerprint)
  }

  ghost predicate EventReadable(e: CEvent, b: EventBatch) {
    In(e.message, b.strings) && BufferReadable(e.data, e.dataLen, b.buffers)
  }

  ghost function ReadEvent(e: CEvent, b: EventBatch): RustEvent
    requires EventReadable(e, b)
  {
    RustEvent(e.kind, e.state, e.code,
              if e.kind == DATA then Buffer(e.data, e.dataLen, b.buffers) else [],
              if e.kind == ERROR || e.kind == HOST_KEY then Text(e.message, b.strings) else "")
  }

  method FlattenEvents(events: seq<SessionEvent>) returns (b: EventBatch)
    ensures |b.events| == |events|
    ensures forall i | 0 <= i < |events| ::
        EventReadable(b.events[i], b) && ReadEvent(b.events[i], b) == SeenEvent(events[i])
  {
    var strings: seq<string>, buffers: seq<Bytes>, recs: seq<EventRec> := [], [], [];
    for i := 0 to |events|
      invariant |recs| == i
      invariant forall k | 0 <= k < i :: EventHeld(recs[k], events[k], strings, buffers)
    {
      var rec;
      match events[i] {
        case StateChanged(state) => rec := EState(state);
        case Data(bytes) =>
          buffers := buffers + [bytes];
          rec := EData(|buffers| - 1);
        case Error(code, message) =>
          strings := strings + [CString(message)];
          rec := EError(code, |strings| - 1);
        case HostKeyPrompt(fingerprint) =>
          strings := strings + [CString(fingerprint)];
          rec := EHostKey(|strings| - 1);
      }
      recs := recs + [rec];
    }

    var out: seq<CEvent> := [];
    for i := 0 to |recs|
      invariant |out| == i
      invariant forall k | 0 <= k < i ::
                  var c := EventBatch(strings, buffers, []);
                  EventReadable(out[k], c) && ReadEvent(out[k], c) == SeenEvent(events[k])
    {
      assert EventHeld(recs[i], events[i], strings, buffers);
      var e;
      match recs[i] {
        case EState(state) => e := CEvent(STATE_CHANGED, state, 0, None, 0, None);
        case EData(d) =>
          e := CEvent(DATA, 0, 0, Some(d), |buffers[d]|, None);
          assert buffers[d][..|buffers[d]|] == buffers[d];
        case EError(code, m) =>
          e := CEvent(ERROR, 0, code, None, 0, Some(m));
          CStringRoundTrip(events[i].message);
        case EHostKey(m) =>
          e := CEvent(HOST_KEY, 0, 0, None, 0, Some(m));
          CStringRoundTrip(events[i].fingerprint);
      }
      out := out + [e];
    }
    b := EventBatch(strings, buffers, out);
    forall i | 0 <= i < |events| ensures EventReadable(out[i], b) && ReadEvent(out[i], b) == SeenEvent(events[i]) {
      assert EventReadable(out[i], EventBatch(strings, buffers, []));
    }
  }

  method DecodeEvents(b: EventBatch) returns (out: seq<RustEvent>)
    requires forall i | 0 <= i < |b.events| :: EventReadable(b.events[i], b)
    ensures |out| == |b.events| && forall i | 0 <= i < |out| :: out[i] == ReadEvent(b.events[i], b)
  {
    out := [];
    for i := 0 to |b.events|
      invariant |out| == i && forall k | 0 <= k < i :: out[k] == ReadEvent(b.events[k], b)
    {
      var e := b.events[i];
      assert EventReadable(e, b);
      var data: Bytes, message := [], "";
      if e.kind == DATA && e.data.Some? && e.dataLen > 0 {
        data := b.buffers[e.data.value][..e.dataLen];
      } else if (e.kind == ERROR || e.kind == HOST_KEY) && e.message.Some? {
        message := Text(e.message, b.strings);
      }
      out := out + [RustEvent(e.kind, e.state, e.code, data, message)];
    }
  }

  method EventRoundTrip(events: seq<SessionEvent>) returns (out: seq<RustEvent>)
    ensures |out| == |events| && forall i | 0 <= i < |out| :: out[i] == SeenEvent(events[i])
    ensures forall i | 0 <= i < |out| && events[i].StateChanged? :: out[i].kind == 0 && out[i].state == events[i].state
    ensures forall i | 0 <= i < |out| && events[i].Data? :: out[i].kind == 1 && out[i].data == events[i].bytes
    ensures forall i | 0 <= i < |out| && events[i].Error? ::
              out[i].kind == 2 && out[i].code == events[i].code && out[i].message == Clean(events[i].message)
    ensures forall i | 0 <= i < |out| && events[i].HostKeyPrompt? ::
              out[i].kind == 3 && out[i].message == Clean(events[i].fingerprint)
  {
    var b := FlattenEvents(events);
    out := DecodeEvents(b);
  }

  /** What the bridge reads in the record's fields. */
  lemma ReadEventIs(e: CEvent, b: EventBatch)
    requires EventReadable(e, b)
    ensures var x := ReadEvent(e, b);
            && x.kind == e.kind && x.state == e.state && x.code == e.code
            && (e.kind == 1 && e.data.Some? ==> x.data == b.buffers[e.data.value][..e.dataLen])
            && ((e.kind == 2 || e.kind == 3) && e.message.Some? ==>
                  x.message == ReadCString(b.strings[e.message.value]))
  {
  }
}
