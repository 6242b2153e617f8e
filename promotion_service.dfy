/** `PromotionService`: transactional create-and-publish, and the delegations to the
    read repository and the CSV loader. */
module Service {
  import opened Errors
  import opened Models
  import Csv
  import ReadRepo
  import WriteRepo

  /** Outcomes of the four external steps of one transaction: `BeginTx`,
      `CreatePromotionTx`, `PublishPromotion` and `Commit`. */
  datatype TxFaults = TxFaults(begin: Status, insert: Status, publish: Status, commit: Status)

  /** What a transaction does to the world, in order. */
  datatype TxEvent =
    | Began
    | Inserted(p: Promotion)           // the row is pending in the transaction
    | Published(p: Promotion)          // the message is on the Kafka topic
    | Committed(rows: seq<Promotion>)  // pending rows become visible in the primary table
    | CommitFailed
    | RolledBack
    | CountedPublish                   // metrics.KafkaPublishedMessages.Inc()

  /** Rows made durable by the commits of a trace. */
  function CommittedRows(trace: seq<TxEvent>): seq<Promotion>
  {
    if trace == [] then []
    else (if trace[0].Committed? then trace[0].rows else []) + CommittedRows(trace[1..])
  }

  /** Messages published by a trace. */
  function PublishedRows(trace: seq<TxEvent>): seq<Promotion>
  {
    if trace == [] then []
    else (if trace[0].Published? then [trace[0].p] else []) + PublishedRows(trace[1..])
  }

  lemma {:induction false} CommittedRowsAppend(a: seq<TxEvent>, b: seq<TxEvent>)
    ensures CommittedRows(a + b) == CommittedRows(a) + CommittedRows(b)
    ensures PublishedRows(a + b) == PublishedRows(a) + PublishedRows(b)
  {
    if a == [] {
      assert a + b == b;
    } else {
      var h, t := a[0], a[1..];
      assert (a + b)[0] == h && (a + b)[1..] == t + b;
      CommittedRowsAppend(t, b);
      var c := if h.Committed? then h.rows else [];
      assert CommittedRows(a + b) == c + CommittedRows(t + b);
      assert CommittedRows(a) == c + CommittedRows(t);
      var q := if h.Published? then [h.p] else [];
      assert PublishedRows(a + b) == q + PublishedRows(t + b);
      assert PublishedRows(a) == q + PublishedRows(t);
    }
  }

  lemma {:induction false} RowsSnoc(t: seq<TxEvent>, e: TxEvent)
    ensures CommittedRows(t + [e]) == CommittedRows(t) + (if e.Committed? then e.rows else [])
    ensures PublishedRows(t + [e]) == PublishedRows(t) + (if e.Published? then [e.p] else [])
  {
    CommittedRowsAppend(t, [e]);
    assert [e][1..] == [];
  }

  /** The events up to a successful insert, and up to a successful publish. */
  function Inserting(p: Promotion): seq<TxEvent> { [Began] + [Inserted(p)] }
  function Publishing(p: Promotion): seq<TxEvent> { Inserting(p) + [Published(p)] }

  /** The steps `CreatePromotion` takes and its result. */
  function CreateSteps(p: Promotion, f: TxFaults): (seq<TxEvent>, Status)
  {
    if f.begin.Err? then ([], Err(Wrapf("failed to start transaction", f.begin.msg)))
    else if f.insert.Err? then
      ([Began] + [RolledBack], Err(Wrapf("failed to create promotion", f.insert.msg)))
    else if f.publish.Err? then
      (Inserting(p) + [RolledBack], Err(Wrapf("failed to publish promotion to Kafka", f.publish.msg)))
    else if f.commit.Err? then
      (Publishing(p) + [CommitFailed], Err(Wrapf("failed to commit transaction", f.commit.msg)))
    else (Publishing(p) + [Committed([p])] + [CountedPublish], Nil)
  }

  /** The steps `processPromotion` takes and its result. The deferred function commits
      after the result `nil` is fixed, so a commit error never reaches the caller. */
  function ProcessSteps(p: Promotion, f: TxFaults): (seq<TxEvent>, Status)
  {
    if f.begin.Err? then ([], Err(Wrapf("failed to start transaction", f.begin.msg)))
    else if f.insert.Err? then
      ([Began] + [RolledBack], Err(Wrapf("failed to create promotion", f.insert.msg)))
    else if f.publish.Err? then
      (Inserting(p) + [RolledBack], Err(Wrapf("failed to publish promotion to Kafka", f.publish.msg)))
    else if f.commit.Err? then (Publishing(p) + [CountedPublish] + [CommitFailed], Nil)
    else (Publishing(p) + [CountedPublish] + [Committed([p])], Nil)
  }

  /** Rows committed and messages published by one call of either operation. */
  lemma StepRows(p: Promotion, f: TxFaults)
    ensures PublishedRows(CreateSteps(p, f).0) == PublishedRows(ProcessSteps(p, f).0) ==
              if f.begin.Nil? && f.insert.Nil? && f.publish.Nil? then [p] else []
    ensures CommittedRows(CreateSteps(p, f).0) == CommittedRows(ProcessSteps(p, f).0) ==
              if f.begin.Nil? && f.insert.Nil? && f.publish.Nil? && f.commit.Nil? then [p] else []
  {
    assert CommittedRows([]) == [] && PublishedRows([]) == [];
    RowsSnoc([], Began);
    assert [] + [Began] == [Began];
    RowsSnoc([Began], RolledBack);
    RowsSnoc([Began], Inserted(p));
    RowsSnoc(Inserting(p), RolledBack);
    RowsSnoc(Inserting(p), Published(p));
    RowsSnoc(Publishing(p), CommitFailed);
    RowsSnoc(Publishing(p), Committed([p]));
    RowsSnoc(Publishing(p) + [Committed([p])], CountedPublish);
    RowsSnoc(Publishing(p), CountedPublish);
    RowsSnoc(Publishing(p) + [CountedPublish], CommitFailed);
    RowsSnoc(Publishing(p) + [CountedPublish], Committed([p]));
  }

  /** The processor `ProcessCSVFile` hands to the loader: the result of
      `processPromotion` on the `i`-th promotion, whose transaction meets `faults(i)`. */
  function ProcessorOf(faults: nat -> TxFaults): (nat, Promotion) -> Status
  {
    (i: nat, p: Promotion) => ProcessSteps(p, faults(i)).1
  }

  /** The traces of `processPromotion` over promotions `ps`, the first meeting `faults(i)`. */
  function ProcessTraces(ps: seq<Promotion>, faults: nat -> TxFaults, i: nat): seq<TxEvent>
    decreases |ps|
  {
    if ps == [] then [] else ProcessSteps(ps[0], faults(i)).0 + ProcessTraces(ps[1..], faults, i + 1)
  }

  lemma {:induction false} ProcessTracesSnoc(ps: seq<Promotion>, p: Promotion, faults: nat -> TxFaults, i: nat)
    ensures ProcessTraces(ps + [p], faults, i) == ProcessTraces(ps, faults, i) + ProcessSteps(p, faults(i + |ps|)).0
    decreases |ps|
  {
    if ps == [] {
      assert ProcessTraces([p], faults, i) == ProcessSteps(p, faults(i)).0 + ProcessTraces([], faults, i + 1);
    } else {
      ProcessTracesSnoc(ps[1..], p, faults, i + 1);
      assert (ps + [p])[1..] == ps[1..] + [p];
    }
  }

  class PromotionService {
    const writeRepo: WriteRepo.WriteRepository
    const readRepo: ReadRepo.ReadRepository
    /** Messages on the Kafka topic, in publish order. */
    var topic: seq<Promotion>
    /** Every transaction event so far. */
    ghost var log: seq<TxEvent>

    constructor (writeRepo: WriteRepo.WriteRepository, readRepo: ReadRepo.ReadRepository)
      ensures this.writeRepo == writeRepo && this.readRepo == readRepo
      ensures topic == [] && log == []
    {
      this.writeRepo := writeRepo;
      this.readRepo := readRepo;
      topic := [];
      log := [];
    }

    /** Begin, insert, publish, commit; the deferred `Rollback` discards the pending row
        on every early return. */
    method CreatePromotion(p: Promotion, f: TxFaults) returns (err: Status)
      modifies this, writeRepo
      ensures err == CreateSteps(p, f).1
      ensures Extends(old(log), old(writeRepo.rows), old(topic), log, writeRepo.rows, topic, CreateSteps(p, f).0)
    {
      StepRows(p, f);
      ghost var start := log;
      if f.begin.Err? {
        assert log == start + [];
        return Err(Wrapf("failed to start transaction", f.begin.msg));
      }
      log := log + [Began];
      var pending: seq<Promotion> := [];
      if f.insert.Err? {
        log := log + [RolledBack];
        assert log == start + ([Began] + [RolledBack]);
        return Err(Wrapf("failed to create promotion", f.insert.msg));
      }
      pending := pending + [p];
      log := log + [Inserted(p)];
      assert log == start + Inserting(p);
      if f.publish.Err? {
        log := log + [RolledBack];
        return Err(Wrapf("failed to publish promotion to Kafka", f.publish.msg));
      }
      topic := topic + [p];
      log := log + [Published(p)];
      assert log == start + Publishing(p);
      if f.commit.Err? {
        log := log + [CommitFailed];
        return Err(Wrapf("failed to commit transaction", f.commit.msg));
      }
      assert pending == [p];
      writeRepo.rows := writeRepo.rows + pending;
      log := log + [Committed(pending)];
      log := log + [CountedPublish];
      err := Nil;
    }

    /** `processPromotion`: like `CreatePromotion`, but the commit runs in a deferred
        function that assigns its error to a local the caller never sees. */
    method ProcessPromotion(p: Promotion, f: TxFaults) returns (err: Status)
      modifies this, writeRepo
      ensures err == ProcessSteps(p, f).1
      ensures Extends(old(log), old(writeRepo.rows), old(topic), log, writeRepo.rows, topic, ProcessSteps(p, f).0)
    {
      StepRows(p, f);
      ghost var start := log;
      if f.begin.Err? {
        assert log == start + [];
        return Err(Wrapf("failed to start transaction", f.begin.msg));
      }
      log := log + [Began];
      var pending: seq<Promotion> := [];
      var local: Status;
      if f.insert.Err? {
        local := f.insert;
        err := Err(Wrapf("failed to create promotion", f.insert.msg));
      } else {
        pending := pending + [p];
        log := log + [Inserted(p)];
        assert log == start + Inserting(p);
        if f.publish.Err? {
          local := f.publish;
          err := Err(Wrapf("failed to publish promotion to Kafka", f.publish.msg));
        } else {
          topic := topic + [p];
          log := log + [Published(p)];
          assert log == start + Publishing(p);
          local := Nil;
          log := log + [CountedPublish];
          err := Nil;
        }
      }
      // the deferred function: it sees the local `err`, not the returned value
      if local.Err? {
        log := log + [RolledBack];
      } else if f.commit.Err? {
        local := f.commit;
        log := log + [CommitFailed];
      } else {
        assert pending == [p];
        writeRepo.rows := writeRepo.rows + pending;
        log := log + [Committed(pending)];
      }
    }

    /** Delegates unchanged to the read repository. */
    method GetPromotion(id: string, f: ReadRepo.GetFaults) returns (r: Result<Promotion>)
      modifies readRepo
      ensures (readRepo.State(), r) == ReadRepo.Get(old(readRepo.State()), readRepo.cacheEnabled, id, f)
    {
      r := readRepo.GetPromotion(id, f);
    }

    /** `ProcessPromotionsFromCSV(filename, s.processPromotion, 5)`: the loader's loop
        with `processPromotion` as the processor; call `i` meets `faults(i)`. */
    method ProcessCSVFile(open: Status, input: seq<Csv.ReadItem>, parsers: Csv.Parsers, faults: nat -> TxFaults)
      returns (err: Status)
      modifies this, writeRepo
      ensures var r := Csv.Load(open, input, parsers, ProcessorOf(faults));
              err == r.err &&
              Extends(old(log), old(writeRepo.rows), old(topic), log, writeRepo.rows, topic,
                      ProcessTraces(r.processed, faults, 0))
    {
      var processor := ProcessorOf(faults);
      ExtendsRefl(log, writeRepo.rows, topic);
      if open.Err? {
        assert Csv.Load(open, input, parsers, processor).processed == [];
        return Err(Wrapf("failed to open file", open.msg));
      }
      ghost var processed: seq<Promotion> := [];
      Csv.ResumesAtStart(input, parsers, processor);
      var i := 0;
      while i < |input|
        invariant 0 <= i <= |input| && |processed| == i
        invariant Csv.Resumes(input, parsers, processor, i, processed)
        invariant Extends(old(log), old(writeRepo.rows), old(topic), log, writeRepo.rows, topic,
                          ProcessTraces(processed, faults, 0))
      {
        var stop;
        stop, err, processed := ImportRecord(old(log), old(writeRepo.rows), old(topic),
                                             input, parsers, faults, i, processed);
        if stop {
          return;
        }
        i := i + 1;
      }
      Csv.ResumesAtEnd(input, parsers, processor, processed);
      err := Nil;
    }

    /** One turn of the import loop: record `i` is read, parsed and handed to
        `processPromotion`. `stop` says the import ends here with `err`. */
    method ImportRecord(ghost log0: seq<TxEvent>, ghost rows0: seq<Promotion>, ghost topic0: seq<Promotion>,
                        input: seq<Csv.ReadItem>, parsers: Csv.Parsers, faults: nat -> TxFaults,
                        i: nat, ghost processed: seq<Promotion>)
      returns (stop: bool, err: Status, ghost processed': seq<Promotion>)
      requires i < |input| && |processed| == i
      requires Csv.Resumes(input, parsers, ProcessorOf(faults), i, processed)
      requires Extends(log0, rows0, topic0, log, writeRepo.rows, topic, ProcessTraces(processed, faults, 0))
      modifies this, writeRepo
      ensures Extends(log0, rows0, topic0, log, writeRepo.rows, topic, ProcessTraces(processed', faults, 0))
      ensures stop ==> Csv.LoadFrom(input, parsers, ProcessorOf(faults), 0) == Csv.LoadResult(err, processed')
      ensures !stop ==> |processed'| == i + 1 && Csv.Resumes(input, parsers, ProcessorOf(faults), i + 1, processed')
    {
      var processor := ProcessorOf(faults);
      processed' := processed;
      match input[i]
      case ReadFailure(e) =>
        Csv.ResumesStops(input, parsers, processor, i, processed);
        return true, Err(Wrapf("error reading CSV record", e)), processed';
      case Row(fields) =>
        match Csv.ParsePromotion(fields, parsers)
        case Rejected(pe) =>
          Csv.ResumesStops(input, parsers, processor, i, processed);
          return true, Err(Wrapf("error parsing promotion", pe.Message())), processed';
        case Accepted(p) =>
          ghost var log1, rows1, topic1 := log, writeRepo.rows, topic;
          var outcome := ProcessPromotion(p, faults(i));
          ExtendsChain(log0, rows0, topic0, log1, rows1, topic1, log, writeRepo.rows, topic,
                       ProcessTraces(processed, faults, 0), ProcessSteps(p, faults(i)).0);
          ProcessTracesSnoc(processed, p, faults, 0);
          Csv.ResumesAccepted(input, parsers, processor, i, p, processed);
          assert processor(i, p) == outcome;
          processed' := processed + [p];
          if outcome.Err? {
            return true, Err(Wrapf("error processing promotion", outcome.msg)), processed';
          }
          stop, err := false, Nil;
    }
  }

  /** The service state `(log, rows, topic)` is the state `(log0, rows0, topic0)` extended
      by the events of `trace`. */
  ghost predicate Extends(log0: seq<TxEvent>, rows0: seq<Promotion>, topic0: seq<Promotion>,
                          log: seq<TxEvent>, rows: seq<Promotion>, topic: seq<Promotion>,
                          trace: seq<TxEvent>)
  {
    log == log0 + trace && rows == rows0 + CommittedRows(trace) && topic == topic0 + PublishedRows(trace)
  }

  lemma ExtendsRefl(log: seq<TxEvent>, rows: seq<Promotion>, topic: seq<Promotion>)
    ensures Extends(log, rows, topic, log, rows, topic, [])
  {
    assert log + [] == log && rows + [] == rows && topic + [] == topic;
  }

  lemma ExtendsChain(log0: seq<TxEvent>, rows0: seq<Promotion>, topic0: seq<Promotion>,
                     log1: seq<TxEvent>, rows1: seq<Promotion>, topic1: seq<Promotion>,
                     log2: seq<TxEvent>, rows2: seq<Promotion>, topic2: seq<Promotion>,
                     t1: seq<TxEvent>, t2: seq<TxEvent>)
    requires Extends(log0, rows0, topic0, log1, rows1, topic1, t1)
    requires Extends(log1, rows1, topic1, log2, rows2, topic2, t2)
    ensures Extends(log0, rows0, topic0, log2, rows2, topic2, t1 + t2)
  {
    CommittedRowsAppend(t1, t2);
  }

  // ---------------------------------------------------------------------------
  // Ordering properties

  /** In a trace, every commit comes after a publish of the same promotion. */
  ghost predicate PublishBeforeCommit(trace: seq<TxEvent>, p: Promotion)
  {
    forall j :: 0 <= j < |trace| && trace[j].Committed? ==>
      exists k :: 0 <= k < j && trace[k] == Published(p)
  }

  /** `CreatePromotion` publishes only after the insert, commits only after insert,
      publish and commit all succeed, and otherwise leaves no row behind. */
  lemma CreateCommitsOnlyAfterPublish(p: Promotion, f: TxFaults)
    ensures PublishBeforeCommit(CreateSteps(p, f).0, p)
    ensures CreateSteps(p, f).1.Nil? <==> CommittedRows(CreateSteps(p, f).0) == [p]
  {
    StepRows(p, f);
    var t := CreateSteps(p, f).0;
    if f.begin.Nil? && f.insert.Nil? && f.publish.Nil? && f.commit.Nil? {
      assert t[2] == Published(p);
    }
  }

  /** A publish can outlive a failed commit: the message is out, the row is not. */
  lemma CreatePublishWithoutCommit(p: Promotion, e: string)
    ensures var (trace, result) := CreateSteps(p, TxFaults(Nil, Nil, Nil, Err(e)));
            PublishedRows(trace) == [p] && CommittedRows(trace) == [] && result.Err?
  {
    StepRows(p, TxFaults(Nil, Nil, Nil, Err(e)));
  }

  /** `CreatePromotion` counts a published message only once the commit has succeeded. */
  lemma CreateCountsAfterCommit(p: Promotion, f: TxFaults)
    ensures forall j :: 0 <= j < |CreateSteps(p, f).0| && CreateSteps(p, f).0[j] == CountedPublish ==>
              exists k :: 0 <= k < j && CreateSteps(p, f).0[k] == Committed([p])
  {
    var t := CreateSteps(p, f).0;
    if f.begin.Nil? && f.insert.Nil? && f.publish.Nil? && f.commit.Nil? {
      assert t[3] == Committed([p]);
    }
  }

  /** `processPromotion` reports an insert or publish failure and rolls back; it
      commits only after the publish. */
  lemma ProcessFailuresRollBack(p: Promotion, f: TxFaults)
    ensures PublishBeforeCommit(ProcessSteps(p, f).0, p)
    ensures f.begin.Nil? && (f.insert.Err? || f.publish.Err?) ==>
              ProcessSteps(p, f).1.Err? && RolledBack in ProcessSteps(p, f).0 &&
              CommittedRows(ProcessSteps(p, f).0) == []
  {
    StepRows(p, f);
    var t := ProcessSteps(p, f).0;
    if f.begin.Nil? && f.insert.Nil? && f.publish.Nil? && f.commit.Nil? {
      assert t[2] == Published(p);
    }
  }

  /** `processPromotion` returns `nil` although its commit failed and no row was stored. */
  lemma ProcessDropsCommitError(p: Promotion, e: string)
    ensures var (trace, result) := ProcessSteps(p, TxFaults(Nil, Nil, Nil, Err(e)));
            result == Nil && CommittedRows(trace) == [] && CommitFailed in trace
  {
    var f := TxFaults(Nil, Nil, Nil, Err(e));
    StepRows(p, f);
    assert ProcessSteps(p, f).0[4] == CommitFailed;
  }

  /** `processPromotion` counts the publish before the commit runs. */
  lemma ProcessCountsBeforeCommit(p: Promotion, f: TxFaults)
    requires f.begin.Nil? && f.insert.Nil? && f.publish.Nil?
    ensures var t := ProcessSteps(p, f).0;
            |t| == 5 && t[3] == CountedPublish && (t[4] == CommitFailed || t[4] == Committed([p]))
  {
  }

  /** Traces of `processPromotion` calls whose commits all fail: every promotion is
      published and none is committed. */
  lemma {:induction false} FailedCommitsTraces(ps: seq<Promotion>, faults: nat -> TxFaults, i: nat, e: string)
    requires forall k :: i <= k < i + |ps| ==> faults(k) == TxFaults(Nil, Nil, Nil, Err(e))
    ensures CommittedRows(ProcessTraces(ps, faults, i)) == []
    ensures PublishedRows(ProcessTraces(ps, faults, i)) == ps
    decreases |ps|
  {
    if ps != [] {
      var f := faults(i);
      assert f == TxFaults(Nil, Nil, Nil, Err(e));
      StepRows(ps[0], f);
      var head := ProcessSteps(ps[0], f).0;
      assert CommittedRows(head) == [] && PublishedRows(head) == [ps[0]];
      var rest := ProcessTraces(ps[1..], faults, i + 1);
      FailedCommitsTraces(ps[1..], faults, i + 1, e);
      assert ProcessTraces(ps, faults, i) == head + rest;
      CommittedRowsAppend(head, rest);
      assert ps == [ps[0]] + ps[1..];
    }
  }

  /** `ProcessCSVFile` reports success for a file whose records all parse even when every
      commit fails: each promotion reaches the topic and no row reaches the table. */
  lemma CsvImportDropsCommitErrors(input: seq<Csv.ReadItem>, parsers: Csv.Parsers, faults: nat -> TxFaults, e: string)
    requires forall j :: 0 <= j < |input| ==> Csv.ParsesAt(input, parsers, j)
    requires forall k :: faults(k) == TxFaults(Nil, Nil, Nil, Err(e))
    ensures var r := Csv.Load(Nil, input, parsers, ProcessorOf(faults));
            r.err == Nil && |r.processed| == |input| &&
            CommittedRows(ProcessTraces(r.processed, faults, 0)) == [] &&
            PublishedRows(ProcessTraces(r.processed, faults, 0)) == r.processed
  {
    var processor := ProcessorOf(faults);
    forall j | 0 <= j < |input|
      ensures Csv.ProcessedAt(input, parsers, processor, j)
    {
      assert Csv.ParsesAt(input, parsers, j);
      assert processor(j, Csv.ParsePromotion(input[j].fields, parsers).p).Nil?;
    }
    Csv.LoadNilIff(Nil, input, parsers, processor);
    Csv.LoadProcessesEachRecordOnce(Nil, input, parsers, processor);
    FailedCommitsTraces(Csv.Load(Nil, input, parsers, processor).processed, faults, 0, e);
  }
}
