/** The request logger: producers and `close` share a queue with one writer that fills rolling part files.
    Its behaviours are all interleavings of atomic steps; the class performs those steps. */
module RequestLogging {
  import opened Messages

  /** A log record; `bytes` is the size of its encoded line, None when encoding it raises. */
  datatype Record = Record(payload: int, bytes: Option<nat>)

  datatype Part = Part(index: nat, records: nat, bytes: nat)

  datatype Manifest = Manifest(closed: bool, total: nat, parts: seq<Part>)

  /** Limits of one part file; the constructor forces both to at least one. */
  datatype Limits = Limits(maxRecords: nat, maxBytes: nat) {
    predicate Ok() {
      maxRecords >= 1 && maxBytes >= 1
    }
  }

  /** The logger's fields, the contents of its part files, and (for the record) what `log` accepted. A None in
      the queue is the sentinel that `close` leaves; `running` is false once the writer thread has ended. */
  datatype State = State(
    queue: seq<Option<Record>>,
    closed: bool,
    running: bool,
    partRecords: nat,
    partBytes: nat,
    total: nat,
    parts: seq<Part>,
    files: seq<seq<Record>>,
    manifest: Option<Manifest>,
    accepted: seq<Record>)

  const STARTED: State := State([], false, true, 0, 0, 0, [], [[]], None, [])

  // ---------- Atomic steps ----------

  datatype Action = Log(record: Record) | Close | Write

  function LogStep(st: State, r: Record): State {
    if st.closed then st else st.(queue := st.queue + [Some(r)], accepted := st.accepted + [r])
  }

  function CloseStep(st: State): State {
    if st.closed then st else st.(closed := true, queue := st.queue + [None])
  }

  predicate ShouldRoll(lim: Limits, st: State, lineBytes: nat) {
    st.partRecords > 0 && (st.partRecords >= lim.maxRecords || st.partBytes + lineBytes > lim.maxBytes)
  }

  /** The index of the open part is the number of files opened. */
  function PartIndex(st: State): nat {
    |st.files|
  }

  function RecordPart(st: State): State {
    if st.partRecords == 0 && st.partBytes == 0 then st else
    var part := Part(PartIndex(st), st.partRecords, st.partBytes);
    if st.parts != [] && st.parts[|st.parts| - 1].index == part.index
    then st.(parts := st.parts[..|st.parts| - 1] + [part])
    else st.(parts := st.parts + [part])
  }

  function WriteManifest(st: State, closed: bool): State {
    var st1 := RecordPart(st);
    st1.(manifest := Some(Manifest(closed, st1.total, st1.parts)))
  }

  function Roll(st: State): State {
    var st1 := WriteManifest(RecordPart(st), false);
    st1.(files := st1.files + [[]], partRecords := 0, partBytes := 0)
  }

  function AppendLine(st: State, r: Record, lineBytes: nat): State
    requires st.files != []
  {
    var n := |st.files| - 1;
    st.(files := st.files[n := st.files[n] + [r]], partRecords := st.partRecords + 1,
        partBytes := st.partBytes + lineBytes, total := st.total + 1)
  }

  /** One turn of the writer's loop; a record that cannot be encoded ends the thread. */
  function WriteStep(lim: Limits, st: State): State
    requires st.files != []
  {
    if !st.running || st.queue == [] then st else
    var item, st1 := st.queue[0], st.(queue := st.queue[1..]);
    if item.None? then WriteManifest(st1, true).(running := false)
    else if item.value.bytes.None? then st1.(running := false)
    else
      var lineBytes := item.value.bytes.value;
      AppendLine(if ShouldRoll(lim, st1, lineBytes) then Roll(st1) else st1, item.value, lineBytes)
  }

  function Step(lim: Limits, st: State, a: Action): (r: State)
    requires st.files != []
    ensures r.files != []
  {
    match a
    case Log(rec) => LogStep(st, rec)
    case Close => CloseStep(st)
    case Write => WriteStep(lim, st)
  }

  /** Any interleaving of the steps of producers, closers and the writer. */
  function Run(lim: Limits, actions: seq<Action>): (r: State)
    ensures r.files != []
  {
    if actions == [] then STARTED else Step(lim, Run(lim, actions[..|actions| - 1]), actions[|actions| - 1])
  }

  // ---------- What has been written ----------

  function Concat(files: seq<seq<Record>>): seq<Record> {
    if files == [] then [] else Concat(files[..|files| - 1]) + files[|files| - 1]
  }

  function Bytes(f: seq<Record>): nat {
    if f == [] then 0 else
    Bytes(f[..|f| - 1]) + Size(f[|f| - 1])
  }

  function Written(st: State): seq<Record> {
    Concat(st.files)
  }

  function SumRecords(parts: seq<Part>): nat {
    if parts == [] then 0 else SumRecords(parts[..|parts| - 1]) + parts[|parts| - 1].records
  }

  /** The manifest entry of file number `i`. */
  function PartFor(files: seq<seq<Record>>, i: nat): Part
    requires i < |files|
  {
    Part(i + 1, |files[i]|, Bytes(files[i]))
  }

  /** `parts` lists the first `n` files. */
  predicate Lists(parts: seq<Part>, files: seq<seq<Record>>, n: nat) {
    n <= |files| && |parts| == n && forall i :: 0 <= i < n ==> parts[i] == PartFor(files, i)
  }

  /** Within both limits, unless it is one oversized record. */
  predicate Fits(lim: Limits, f: seq<Record>) {
    |f| <= lim.maxRecords && (Bytes(f) <= lim.maxBytes || |f| == 1)
  }

  function Size(r: Record): nat {
    if r.bytes.Some? then r.bytes.value else 0
  }

  predicate Encodable(rs: seq<Record>) {
    forall i :: 0 <= i < |rs| ==> rs[i].bytes.Some?
  }

  /** The queue of a running logger: the accepted records not yet written, and the sentinel after a close. */
  predicate QueueIs(queue: seq<Option<Record>>, waiting: seq<Record>, closed: bool) {
    && |queue| == |waiting| + (if closed then 1 else 0)
    && (forall i :: 0 <= i < |waiting| ==> queue[i] == Some(waiting[i]))
    && (closed ==> queue[|waiting|] == None)
  }

  /** The files and the counters of the open one. */
  ghost predicate FilesOk(lim: Limits, st: State) {
    && st.files != []
    && (forall i :: 0 <= i < |st.files| ==> Fits(lim, st.files[i]))
    && (forall i :: 0 <= i < |st.files| - 1 ==> st.files[i] != [])
    && st.partRecords == |st.files[|st.files| - 1]|
    && st.partBytes == Bytes(st.files[|st.files| - 1])
    && st.total == |Written(st)|
    && Encodable(Written(st))
  }

  ghost predicate Inv(lim: Limits, st: State) {
    && FilesOk(lim, st)
    && Written(st) <= st.accepted
    && (st.manifest.Some? ==> st.manifest.value.total <= st.total)
    && (st.running ==>
         && QueueIs(st.queue, st.accepted[|Written(st)|..], st.closed)
         && Lists(st.parts, st.files, |st.files| - 1))
    && (!st.running ==> Delivered(lim, st) || Died(st))
  }

  /** The writer met the sentinel: everything accepted is in the files, and the manifest says so. */
  ghost predicate Delivered(lim: Limits, st: State) {
    && st.closed && st.queue == [] && Written(st) == st.accepted
    && st.manifest == Some(Manifest(true, |st.accepted|, st.parts))
    && SumRecords(st.parts) == |st.accepted|
    && |st.parts| <= |st.files|
    && (forall i :: 0 <= i < |st.parts| ==>
         st.parts[i] == PartFor(st.files, i) && st.files[i] != [] && Fits(lim, st.files[i]))
    && (forall i :: |st.parts| <= i < |st.files| ==> st.files[i] == [])
  }

  /** The writer was ended by a record it could not encode, right after what it has written. */
  ghost predicate Died(st: State) {
    |Written(st)| < |st.accepted| && st.accepted[|Written(st)|].bytes.None?
  }

  // ---------- Preservation ----------

  lemma {:induction false} ConcatSnoc(files: seq<seq<Record>>, f: seq<Record>)
    ensures Concat(files + [f]) == Concat(files) + f
  {
  }

  lemma ConcatAppend(files: seq<seq<Record>>, r: Record)
    requires files != []
    ensures
      var n := |files| - 1;
      Concat(files[n := files[n] + [r]]) == Concat(files) + [r]
  {
  }

  lemma {:induction false} SumLists(parts: seq<Part>, files: seq<seq<Record>>, n: nat)
    requires Lists(parts, files, n)
    ensures SumRecords(parts) == |Concat(files[..n])|
  {
    if n > 0 {
      assert files[..n][..n - 1] == files[..n - 1];
      SumLists(parts[..n - 1], files, n - 1);
    }
  }

  lemma LogKeeps(lim: Limits, st: State, r: Record)
    requires Inv(lim, st)
    ensures Inv(lim, LogStep(st, r))
  {
  }

  lemma CloseKeeps(lim: Limits, st: State)
    requires Inv(lim, st)
    ensures Inv(lim, CloseStep(st))
  {
  }

  lemma RollKeeps(lim: Limits, st: State)
    requires FilesOk(lim, st) && st.partRecords > 0 && Lists(st.parts, st.files, |st.files| - 1)
    ensures
      var r := Roll(st);
      && FilesOk(lim, r) && Written(r) == Written(st) && Lists(r.parts, r.files, |r.files| - 1)
      && r.partRecords == 0 && r.partBytes == 0 && r.manifest == Some(Manifest(false, st.total, r.parts))
      && r == st.(files := r.files, parts := r.parts, manifest := r.manifest, partRecords := 0, partBytes := 0)
  {
    hide Concat, Bytes;
    var st1 := RecordPart(st);
    assert Lists(st1.parts, st.files, |st.files|);
    assert RecordPart(st1).parts == st1.parts;
    ConcatSnoc(st.files, []);
    BytesOfEmpty([]);
  }

  lemma AppendKeeps(lim: Limits, st: State, r: Record, lineBytes: nat)
    requires lim.Ok() && FilesOk(lim, st) && r.bytes == Some(lineBytes) && !ShouldRoll(lim, st, lineBytes)
    ensures
      var s := AppendLine(st, r, lineBytes);
      && FilesOk(lim, s) && Written(s) == Written(st) + [r]
      && (Lists(st.parts, st.files, |st.files| - 1) ==> Lists(s.parts, s.files, |s.files| - 1))
  {
    hide Concat, Bytes;
    var f := st.files[|st.files| - 1];
    ConcatAppend(st.files, r);
    BytesSnoc(f, r);
    BytesOfEmpty(f);
  }

  lemma {:induction false} BytesSnoc(f: seq<Record>, r: Record)
    requires r.bytes.Some?
    ensures Bytes(f + [r]) == Bytes(f) + r.bytes.value
  {
  }

  /** Recording the open part completes the list of the files that hold anything. */
  lemma RecordPartLists(lim: Limits, st: State)
    requires FilesOk(lim, st) && Lists(st.parts, st.files, |st.files| - 1)
    ensures
      var r := RecordPart(st);
      && r == st.(parts := r.parts) && Lists(r.parts, st.files, |r.parts|) && SumRecords(r.parts) == |Written(st)|
      && forall i :: 0 <= i < |st.files| ==> (st.files[i] != [] <==> i < |r.parts|)
  {
    hide Concat, Bytes, SumRecords;
    var n := |st.files| - 1;
    var parts := RecordPart(st).parts;
    BytesOfEmpty(st.files[n]);
    if st.partRecords == 0 && st.partBytes == 0 {
      SumLists(parts, st.files, n);
      assert st.files == st.files[..n] + [[]];
      ConcatSnoc(st.files[..n], []);
    } else {
      assert Lists(parts, st.files, n + 1);
      SumLists(parts, st.files, n + 1);
      assert st.files[..n + 1] == st.files;
    }
  }

  lemma SentinelDelivers(lim: Limits, st: State)
    requires Inv(lim, st) && st.running && st.queue != [] && st.queue[0].None?
    ensures Delivered(lim, WriteStep(lim, st)) && FilesOk(lim, WriteStep(lim, st))
  {
    hide Concat, Bytes, SumRecords, RecordPart;
    var st1 := st.(queue := st.queue[1..]);
    assert st.accepted[|Written(st)|..] == [];
    assert Written(st) == st.accepted;
    RecordPartLists(lim, st1);
  }

  lemma {:induction false} BytesOfEmpty(f: seq<Record>)
    ensures f == [] ==> Bytes(f) == 0
  {
  }

  lemma RecordKeeps(lim: Limits, st: State)
    requires lim.Ok() && Inv(lim, st) && st.running && st.queue != [] && st.queue[0].Some?
    requires st.queue[0].value.bytes.Some?
    ensures Inv(lim, WriteStep(lim, st))
    ensures Written(WriteStep(lim, st)) == Written(st) + [st.queue[0].value]
  {
    hide Concat, Roll, AppendLine;
    var st1 := st.(queue := st.queue[1..]);
    var r := st.queue[0].value;
    var waiting := st.accepted[|Written(st)|..];
    assert waiting != [] && waiting[0] == r;
    var lineBytes := r.bytes.value;
    var st2 := if ShouldRoll(lim, st1, lineBytes) then Roll(st1) else st1;
    if ShouldRoll(lim, st1, lineBytes) {
      RollKeeps(lim, st1);
    }
    AppendKeeps(lim, st2, r, lineBytes);
    AppendFrame(st2, r, lineBytes);
    var s := WriteStep(lim, st);
    assert st.accepted[|Written(s)|..] == waiting[1..];
    assert Written(s) <= st.accepted;
  }

  lemma AppendFrame(st: State, r: Record, lineBytes: nat)
    requires st.files != []
    ensures
      var s := AppendLine(st, r, lineBytes);
      && s.queue == st.queue && s.closed == st.closed && s.running == st.running
      && s.accepted == st.accepted && s.parts == st.parts && |s.files| == |st.files|
      && s.manifest == st.manifest && s.total == st.total + 1
  {
  }

  lemma WriteKeeps(lim: Limits, st: State)
    requires lim.Ok() && Inv(lim, st)
    ensures Inv(lim, WriteStep(lim, st))
  {
    hide Concat, Roll, AppendLine, WriteManifest, SumRecords;
    if st.running && st.queue != [] {
      if st.queue[0].None? {
        SentinelDelivers(lim, st);
        SentinelFrame(lim, st);
      } else if st.queue[0].value.bytes.None? {
        var waiting := st.accepted[|Written(st)|..];
        assert waiting != [] && waiting[0] == st.queue[0].value;
      } else {
        RecordKeeps(lim, st);
      }
    }
  }

  lemma SentinelFrame(lim: Limits, st: State)
    requires st.files != [] && st.running && st.queue != [] && st.queue[0].None?
    ensures
      var s := WriteStep(lim, st);
      !s.running && s.files == st.files && s.accepted == st.accepted
  {
  }

  /** The invariant holds after every interleaving. */
  lemma {:induction false} EveryRunKeeps(lim: Limits, actions: seq<Action>)
    requires lim.Ok()
    ensures Inv(lim, Run(lim, actions))
  {
    hide Inv, LogStep, CloseStep, WriteStep;
    if actions == [] {
      StartedOk(lim);
    } else {
      var n := |actions| - 1;
      EveryRunKeeps(lim, actions[..n]);
      var before := Run(lim, actions[..n]);
      match actions[n] {
        case Log(r) => LogKeeps(lim, before, r);
        case Close => CloseKeeps(lim, before);
        case Write => WriteKeeps(lim, before);
      }
    }
  }

  lemma StartedOk(lim: Limits)
    ensures Inv(lim, STARTED)
  {
  }

  // ---------- What was accepted ----------

  /** The records logged before the first close. */
  function LoggedBeforeClose(actions: seq<Action>): seq<Record> {
    if actions == [] then [] else
    match actions[0]
    case Close => []
    case Log(r) => [r] + LoggedBeforeClose(actions[1..])
    case Write => LoggedBeforeClose(actions[1..])
  }

  lemma {:induction false} LoggedSnoc(actions: seq<Action>, a: Action)
    ensures
      LoggedBeforeClose(actions + [a])
      == LoggedBeforeClose(actions) + (if Close !in actions && a.Log? then [a.record] else [])
  {
    if actions != [] {
      assert (actions + [a])[1..] == actions[1..] + [a];
      LoggedSnoc(actions[1..], a);
    } else {
      assert [a][1..] == [];
    }
  }

  /** A logger accepts exactly what is logged before it is closed, whatever the writer does. */
  lemma {:induction false} AcceptedExactly(lim: Limits, actions: seq<Action>)
    ensures Run(lim, actions).accepted == LoggedBeforeClose(actions)
    ensures Run(lim, actions).closed <==> Close in actions
  {
    hide WriteStep;
    if actions != [] {
      var n := |actions| - 1;
      AcceptedExactly(lim, actions[..n]);
      LoggedSnoc(actions[..n], actions[n]);
      assert actions == actions[..n] + [actions[n]];
      WriteFrame(lim, Run(lim, actions[..n]));
    }
  }

  // ---------- Packing ----------

  /** No file is begun early: the first record of `g` did not fit into the file before it. */
  predicate Tight(lim: Limits, f: seq<Record>, g: seq<Record>) {
    g == [] || |f| >= lim.maxRecords || Bytes(f) + Size(g[0]) > lim.maxBytes
  }

  /** Files are begun only for a record that does not fit into the one before, and never left empty; a manifest that is
      still open lists exactly the files before the last one, which will not change, and counts their records. */
  ghost predicate Packed(lim: Limits, st: State) {
    && st.files != []
    && (forall i :: 1 <= i < |st.files| ==> st.files[i] != [] && Tight(lim, st.files[i - 1], st.files[i]))
    && match st.manifest
       case None => |st.files| == 1
       case Some(m) => !m.closed ==> Lists(m.parts, st.files, |st.files| - 1) && SumRecords(m.parts) == m.total
  }

  lemma AppendPacks(lim: Limits, st: State, r: Record, lineBytes: nat)
    requires Packed(lim, st)
    ensures Packed(lim, AppendLine(st, r, lineBytes))
  {
    hide Bytes, SumRecords;
  }

  lemma RollsExactly(lim: Limits, st: State, r: Record, lineBytes: nat)
    requires FilesOk(lim, st) && Packed(lim, st) && Lists(st.parts, st.files, |st.files| - 1)
    requires r.bytes == Some(lineBytes) && ShouldRoll(lim, st, lineBytes)
    ensures Packed(lim, AppendLine(Roll(st), r, lineBytes))
  {
    hide Concat, Bytes, SumRecords, RecordPart;
    RecordPartLists(lim, st);
    RecordTwice(st);
    var n := |st.files| - 1;
    assert Roll(st).files == st.files + [[]];
    var s := AppendLine(Roll(st), r, lineBytes);
    assert s.files == st.files + [[r]] && [] + [r] == [r];
    FirstFits(lim, st.files[n], r);
  }

  lemma RecordTwice(st: State)
    ensures RecordPart(RecordPart(st)) == RecordPart(st)
  {
  }

  lemma FirstFits(lim: Limits, f: seq<Record>, r: Record)
    ensures Tight(lim, f, [r]) <==> |f| >= lim.maxRecords || Bytes(f) + Size(r) > lim.maxBytes
  {
  }

  lemma WritePacks(lim: Limits, st: State)
    requires lim.Ok() && Inv(lim, st) && Packed(lim, st)
    ensures Packed(lim, WriteStep(lim, st))
  {
    hide Concat, Roll, AppendLine, SumRecords, Bytes, RecordPart, Delivered, Died;
    if st.running && st.queue != [] {
      var st1 := st.(queue := st.queue[1..]);
      if st.queue[0].None? {
        RecordedFiles(st1);
      } else if st.queue[0].value.bytes.Some? {
        var r := st.queue[0].value;
        if ShouldRoll(lim, st1, r.bytes.value) {
          RollsExactly(lim, st1, r, r.bytes.value);
        } else {
          AppendPacks(lim, st1, r, r.bytes.value);
        }
      }
    }
  }

  lemma RecordedFiles(st: State)
    ensures WriteManifest(st, true).files == st.files
    ensures WriteManifest(st, true).manifest.Some? && WriteManifest(st, true).manifest.value.closed
  {
  }

  /** After every interleaving no file was begun early, none but the first is empty, and an open manifest is exact. */
  lemma {:induction false} EveryRunPacks(lim: Limits, actions: seq<Action>)
    requires lim.Ok()
    ensures Packed(lim, Run(lim, actions))
  {
    hide Inv, WriteStep;
    if actions != [] {
      var n := |actions| - 1;
      EveryRunPacks(lim, actions[..n]);
      EveryRunKeeps(lim, actions[..n]);
      WritePacks(lim, Run(lim, actions[..n]));
    }
  }

  // ---------- Delivery ----------

  /** The records of `rs` before the first that cannot be encoded. */
  function EncodablePrefix(rs: seq<Record>): seq<Record> {
    if rs == [] || rs[0].bytes.None? then [] else [rs[0]] + EncodablePrefix(rs[1..])
  }

  lemma {:induction false} PrefixIs(rs: seq<Record>, w: seq<Record>)
    requires w <= rs && Encodable(w) && (w == rs || rs[|w|].bytes.None?)
    ensures EncodablePrefix(rs) == w
  {
    if w != [] {
      PrefixIs(rs[1..], w[1..]);
    }
  }

  /** `n` turns of the writer. */
  function Drained(lim: Limits, st: State, n: nat): (r: State)
    requires st.files != []
    ensures r.files != []
    decreases n
  {
    if n == 0 then st else Drained(lim, WriteStep(lim, st), n - 1)
  }

  lemma {:induction false} DrainStops(lim: Limits, st: State, n: nat)
    requires lim.Ok() && Inv(lim, st) && st.closed && n >= |st.queue|
    ensures
      var s := Drained(lim, st, n);
      Inv(lim, s) && !s.running && s.accepted == st.accepted && s.closed
    decreases n
  {
    hide Concat, Roll, AppendLine, WriteManifest, SumRecords;
    if !st.running {
      StoppedStays(lim, st, n);
    } else if n > 0 {
      WriteKeeps(lim, st);
      WriteFrame(lim, st);
      DrainStops(lim, WriteStep(lim, st), n - 1);
    }
  }

  lemma {:induction false} StoppedStays(lim: Limits, st: State, n: nat)
    requires st.files != [] && !st.running
    ensures Drained(lim, st, n) == st
  {
    if n > 0 {
      StoppedStays(lim, st, n - 1);
    }
  }

  lemma WriteFrame(lim: Limits, st: State)
    requires st.files != []
    ensures
      var s := WriteStep(lim, st);
      && s.accepted == st.accepted && s.closed == st.closed
      && (st.running && st.queue != [] ==> |s.queue| == |st.queue| - 1)
      && (!st.running || st.queue == [] ==> s == st)
  {
  }

  function Writes(actions: seq<Action>): nat {
    if actions == [] then 0 else
    Writes(actions[..|actions| - 1]) + (if actions[|actions| - 1] == Write then 1 else 0)
  }

  lemma {:induction false} DrainedSnoc(lim: Limits, st: State, n: nat)
    requires st.files != []
    ensures Drained(lim, st, n + 1) == WriteStep(lim, Drained(lim, st, n))
    decreases n
  {
    hide WriteStep;
    if n > 0 {
      FilesStay(lim, st);
      DrainedSnoc(lim, WriteStep(lim, st), n - 1);
    }
  }

  lemma FilesStay(lim: Limits, st: State)
    requires st.files != []
    ensures WriteStep(lim, st).files != []
  {
  }

  /** After a close only the turns of the writer matter: whatever else is called has no effect. */
  lemma {:induction false} OnlyWritesMatter(lim: Limits, actions: seq<Action>, more: seq<Action>)
    requires lim.Ok() && Run(lim, actions).closed
    ensures Run(lim, actions + more) == Drained(lim, Run(lim, actions), Writes(more))
  {
    hide WriteStep;
    if more == [] {
      assert actions + more == actions;
    } else {
      var n := |more| - 1;
      assert (actions + more)[..|actions + more| - 1] == actions + more[..n];
      OnlyWritesMatter(lim, actions, more[..n]);
      AcceptedFinal(lim, actions, more[..n]);
      DrainedSnoc(lim, Run(lim, actions), Writes(more[..n]));
    }
  }

  predicate ManifestClosed(st: State) {
    st.manifest.Some? && st.manifest.value.closed
  }

  lemma WriteClosesManifest(lim: Limits, st: State)
    requires lim.Ok() && Inv(lim, st) && (ManifestClosed(st) ==> !st.running && Delivered(lim, st))
    ensures
      var s := WriteStep(lim, st);
      ManifestClosed(s) ==> !s.running && Delivered(lim, s)
  {
    hide Inv, Delivered, FilesOk, RecordPart;
    if st.running && st.queue != [] && st.queue[0].None? {
      SentinelDelivers(lim, st);
    }
  }

  /** The manifest is closed only once the writer has ended with everything accepted delivered, in every
      interleaving; a writer ended by a record it cannot encode leaves it open. */
  lemma {:induction false} ClosedManifestIsComplete(lim: Limits, actions: seq<Action>)
    requires lim.Ok() && ManifestClosed(Run(lim, actions))
    ensures !Run(lim, actions).running && Delivered(lim, Run(lim, actions))
  {
    hide Inv, Delivered, WriteStep;
    var n := |actions| - 1;
    var before := Run(lim, actions[..n]);
    EveryRunKeeps(lim, actions[..n]);
    if ManifestClosed(before) {
      ClosedManifestIsComplete(lim, actions[..n]);
      DeliveredStays(lim, before, actions[n]);
    } else {
      WriteClosesManifest(lim, before);
    }
  }

  lemma DeliveredStays(lim: Limits, st: State, a: Action)
    requires st.files != [] && !st.running && Delivered(lim, st)
    ensures Step(lim, st, a) == st
  {
  }

  /** After a close, as many turns of the writer as there are queued items settle everything, whatever else is
      called between them: the files hold the accepted records in order, each once, up to the first that cannot be
      encoded. Exactly when there is none, the manifest is closed, with non-empty parts within limits that sum to
      the total. */
  lemma {:induction false} CloseDelivers(lim: Limits, actions: seq<Action>, more: seq<Action>)
    requires lim.Ok() && Run(lim, actions).closed && Writes(more) >= |Run(lim, actions).queue|
    ensures
      var accepted, s := Run(lim, actions).accepted, Run(lim, actions + more);
      && !s.running && Written(s) == EncodablePrefix(accepted)
      && (Delivered(lim, s) <==> Encodable(accepted))
      && (ManifestClosed(s) <==> Encodable(accepted))
  {
    hide Run, Drained, Concat, SumRecords;
    EveryRunKeeps(lim, actions);
    var st := Run(lim, actions);
    OnlyWritesMatter(lim, actions, more);
    DrainStops(lim, st, Writes(more));
    var s := Run(lim, actions + more);
    PrefixIs(st.accepted, Written(s));
    if ManifestClosed(s) {
      ClosedManifestIsComplete(lim, actions + more);
    }
  }

  /** Once closed, the set of accepted records is final: whatever is logged later reaches neither the files, nor the
      total, nor the manifest. */
  lemma {:induction false} NothingAfterClose(lim: Limits, actions: seq<Action>, more: seq<Action>)
    requires lim.Ok() && Run(lim, actions).closed
    ensures
      var accepted, later := Run(lim, actions).accepted, Run(lim, actions + more);
      && later.closed && later.accepted == accepted
      && Written(later) <= accepted && later.total <= |accepted|
      && (later.manifest.Some? ==> later.manifest.value.total <= |accepted|)
  {
    AcceptedFinal(lim, actions, more);
    EveryRunKeeps(lim, actions + more);
  }

  lemma {:induction false} AcceptedFinal(lim: Limits, actions: seq<Action>, more: seq<Action>)
    requires lim.Ok() && Run(lim, actions).closed
    ensures Run(lim, actions + more).closed && Run(lim, actions + more).accepted == Run(lim, actions).accepted
  {
    hide WriteStep;
    if more == [] {
      assert actions + more == actions;
    } else {
      var n := |more| - 1;
      assert (actions + more)[..|actions + more| - 1] == actions + more[..n];
      AcceptedFinal(lim, actions, more[..n]);
      WriteFrame(lim, Run(lim, actions + more[..n]));
    }
  }

  // ---------- The logger object ----------

  class ModelRequestLogger {
    const limits: Limits
    var queue: seq<Option<Record>>
    var closed: bool
    var running: bool
    var partRecords: nat
    var partBytes: nat
    var total: nat
    var parts: seq<Part>
    var files: seq<seq<Record>>
    var manifest: Option<Manifest>
    ghost var accepted: seq<Record>

    ghost function Value(): State
      reads this
    {
      State(queue, closed, running, partRecords, partBytes, total, parts, files, manifest, accepted)
    }

    ghost predicate Valid()
      reads this
    {
      limits.Ok() && Inv(limits, Value())
    }

    constructor (maxRecords: int, maxBytes: int)
      ensures Valid() && Value() == STARTED
      ensures limits == Limits(if maxRecords > 1 then maxRecords else 1, if maxBytes > 1 then maxBytes else 1)
    {
      limits := Limits(if maxRecords > 1 then maxRecords else 1, if maxBytes > 1 then maxBytes else 1);
      queue, closed, running := [], false, true;
      partRecords, partBytes, total := 0, 0, 0;
      parts, files, manifest := [], [[]], None;
      accepted := [];
      new;
      StartedOk(limits);
    }

    method Log(record: Record)
      requires Valid()
      modifies this`queue, this`accepted
      ensures Valid() && Value() == LogStep(old(Value()), record)
    {
      LogKeeps(limits, Value(), record);
      if closed {
        return;
      }
      queue := queue + [Some(record)];
      accepted := accepted + [record];
    }

    method Close()
      requires Valid()
      modifies this`queue, this`closed
      ensures Valid() && Value() == CloseStep(old(Value()))
    {
      CloseKeeps(limits, Value());
      if closed {
        return;
      }
      closed := true;
      queue := queue + [None];
    }

    method RecordCurrentPart()
      modifies this`parts
      ensures Value() == RecordPart(old(Value()))
    {
      if partRecords == 0 && partBytes == 0 {
        return;
      }
      var part := Part(|files|, partRecords, partBytes);
      if parts != [] && parts[|parts| - 1].index == part.index {
        parts := parts[..|parts| - 1] + [part];
      } else {
        parts := parts + [part];
      }
    }

    method SaveManifest(close: bool)
      modifies this`parts, this`manifest
      ensures Value() == WriteManifest(old(Value()), close)
    {
      RecordCurrentPart();
      manifest := Some(Manifest(close, total, parts));
    }

    method RollPart()
      modifies this`parts, this`manifest, this`files, this`partRecords, this`partBytes
      ensures Value() == Roll(old(Value())) && files != []
    {
      RecordCurrentPart();
      SaveManifest(false);
      files := files + [[]];
      partRecords, partBytes := 0, 0;
    }

    /** One turn of the writer's loop; it waits while the queue is empty. */
    method WriteNext()
      requires Valid()
      modifies this
      ensures Valid() && Value() == WriteStep(limits, old(Value()))
    {
      assert files != [];
      hide WriteManifest, Roll, AppendLine, FilesOk, Delivered, Died, QueueIs, Written;
      WriteKeeps(limits, Value());
      if !running || queue == [] {
        return;
      }
      var item := queue[0];
      queue := queue[1..];
      if item.None? {
        SaveManifest(true);
        running := false;
        return;
      }
      if item.value.bytes.None? {
        running := false;
        return;
      }
      var lineBytes := item.value.bytes.value;
      if partRecords > 0 && (partRecords >= limits.maxRecords || partBytes + lineBytes > limits.maxBytes) {
        RollPart();
      }
      WriteLine(item.value, lineBytes);
    }

    method WriteLine(record: Record, lineBytes: nat)
      requires files != []
      modifies this`files, this`partRecords, this`partBytes, this`total
      ensures Value() == AppendLine(old(Value()), record, lineBytes)
    {
      files := files[|files| - 1 := files[|files| - 1] + [record]];
      partRecords := partRecords + 1;
      partBytes := partBytes + lineBytes;
      total := total + 1;
    }

    /** The writer's loop once `close` has been called: it ends, with everything encodable on disk. */
    method Drain()
      requires Valid() && closed
      modifies this
      ensures Valid() && !running && accepted == old(accepted)
      ensures Written(Value()) == EncodablePrefix(accepted)
      ensures Encodable(accepted) ==> Delivered(limits, Value())
    {
      while running
        invariant Valid() && closed && accepted == old(accepted)
        decreases |queue|, running
      {
        WriteFrame(limits, Value());
        WriteNext();
      }
      PrefixIs(accepted, Written(Value()));
    }
  }
}
