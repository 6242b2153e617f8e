/** Loading promotions from a CSV file: `parsePromotion` and `ProcessPromotionsFromCSV`. */
module Csv {
  import opened Errors
  import opened Models

  /** The layout handed to `time.Parse` for the expiration column. */
  const DateLayout := "2006-01-02 15:04:05 -0700 MST"

  /** The library calls `parsePromotion` relies on, left uninterpreted:
      `strconv.ParseFloat(s, 64)`, `time.Parse(layout, s)` and `Promotion.Validate()`. */
  datatype Parsers = Parsers(
    parseFloat: string -> Result<real>,
    parseTime: (string, string) -> Result<Instant>,
    validate: Promotion -> Status)

  /** Why `parsePromotion` rejects a record. */
  datatype ParseError =
    | InvalidRecordFormat
    | InvalidPriceFormat(cause: string)
    | InvalidDateFormat(cause: string)
    | InvalidPromotionData(cause: string)
  {
    function Message(): string
    {
      match this
      case InvalidRecordFormat => "invalid record format"
      case InvalidPriceFormat(c) => Wrapf("invalid price format", c)
      case InvalidDateFormat(c) => Wrapf("invalid date format", c)
      case InvalidPromotionData(c) => Wrapf("invalid promotion data", c)
    }

    function Kind(): Check
    {
      match this
      case InvalidRecordFormat => FieldCount
      case InvalidPriceFormat(_) => PriceFormat
      case InvalidDateFormat(_) => DateFormat
      case InvalidPromotionData(_) => Validation
    }
  }

  datatype Parsed = Accepted(p: Promotion) | Rejected(error: ParseError)

  /** `parsePromotion`: field count, then price, then date, then validation. */
  function ParsePromotion(record: seq<string>, parsers: Parsers): (r: Parsed)
    ensures |record| != 3 ==> r == Rejected(InvalidRecordFormat)
    ensures r.Accepted? ==> |record| == 3 && r.p.id == record[0]
  {
    if |record| != 3 then Rejected(InvalidRecordFormat)
    else match parsers.parseFloat(record[1])
      case Failure(e) => Rejected(InvalidPriceFormat(e))
      case Ok(price) =>
        match parsers.parseTime(DateLayout, record[2])
        case Failure(e) => Rejected(InvalidDateFormat(e))
        case Ok(date) =>
          var promotion := Promotion(record[0], price, date);
          match parsers.validate(promotion)
          case Err(e) => Rejected(InvalidPromotionData(e))
          case Nil => Accepted(promotion)
  }

  // ---------------------------------------------------------------------------
  // Reference definition of the check order

  datatype Check = FieldCount | PriceFormat | DateFormat | Validation

  const CheckOrder: seq<Check> := [FieldCount, PriceFormat, DateFormat, Validation]

  /** Whether `record` passes check `c`. A later check can only be evaluated on a record
      that has the values the earlier checks produce, so it includes them. */
  predicate Passes(c: Check, record: seq<string>, parsers: Parsers)
  {
    match c
    case FieldCount => |record| == 3
    case PriceFormat => |record| == 3 && parsers.parseFloat(record[1]).Ok?
    case DateFormat => |record| == 3 && parsers.parseTime(DateLayout, record[2]).Ok?
    case Validation =>
      && |record| == 3
      && parsers.parseFloat(record[1]).Ok?
      && parsers.parseTime(DateLayout, record[2]).Ok?
      && parsers.validate(Promotion(record[0], parsers.parseFloat(record[1]).value,
                                    parsers.parseTime(DateLayout, record[2]).value)).Nil?
  }

  /** The first check in `CheckOrder` that fails decides the error. */
  lemma FirstFailingCheckDecides(record: seq<string>, parsers: Parsers, k: nat)
    requires k < |CheckOrder|
    requires forall j :: 0 <= j < k ==> Passes(CheckOrder[j], record, parsers)
    requires !Passes(CheckOrder[k], record, parsers)
    ensures ParsePromotion(record, parsers).Rejected?
    ensures ParsePromotion(record, parsers).error.Kind() == CheckOrder[k]
  {
    if k > 0 {
      assert Passes(CheckOrder[0], record, parsers);
    }
    if k > 1 {
      assert Passes(CheckOrder[1], record, parsers);
    }
    if k > 2 {
      assert Passes(CheckOrder[2], record, parsers);
    }
  }

  /** A record is accepted exactly when it passes every check, and then the promotion
      carries `record[0]` verbatim as its id and the parsed price and date. */
  lemma AcceptedIffAllChecksPass(record: seq<string>, parsers: Parsers)
    ensures ParsePromotion(record, parsers).Accepted? <==>
              forall j :: 0 <= j < |CheckOrder| ==> Passes(CheckOrder[j], record, parsers)
    ensures ParsePromotion(record, parsers).Accepted? ==>
              ParsePromotion(record, parsers).p ==
                Promotion(record[0], parsers.parseFloat(record[1]).value,
                          parsers.parseTime(DateLayout, record[2]).value)
  {
    if ParsePromotion(record, parsers).Accepted? {
      assert Passes(CheckOrder[3], record, parsers);
    } else if forall j :: 0 <= j < |CheckOrder| ==> Passes(CheckOrder[j], record, parsers) {
      assert Passes(CheckOrder[3], record, parsers);
    }
  }

  // ---------------------------------------------------------------------------
  // Loading a file

  /** What `reader.Read()` returns before `io.EOF`: a record's fields, or a read error. */
  datatype ReadItem = Row(fields: seq<string>) | ReadFailure(msg: string)

  /** The result of a load and the promotions handed to the processor, in order. */
  datatype LoadResult = LoadResult(err: Status, processed: seq<Promotion>)

  /** Whether item `i` of the input is a record that parses. */
  predicate ParsesAt(input: seq<ReadItem>, parsers: Parsers, i: nat)
    requires i < |input|
  {
    input[i].Row? && ParsePromotion(input[i].fields, parsers).Accepted?
  }

  /** Whether item `i` parses and its promotion is processed without error. */
  predicate ProcessedAt(input: seq<ReadItem>, parsers: Parsers, processor: (nat, Promotion) -> Status, i: nat)
    requires i < |input|
  {
    ParsesAt(input, parsers, i) && processor(i, ParsePromotion(input[i].fields, parsers).p).Nil?
  }

  /** The sequential account of loading `input[i..]`; `processor(i, p)` is the result of
      processing the promotion parsed from item `i`. */
  function LoadFrom(input: seq<ReadItem>, parsers: Parsers, processor: (nat, Promotion) -> Status, i: nat): (r: LoadResult)
    requires i <= |input|
    decreases |input| - i
    ensures |r.processed| <= |input| - i
    ensures forall j :: i <= j < i + |r.processed| ==>
              ParsesAt(input, parsers, j) &&
              r.processed[j - i] == ParsePromotion(input[j].fields, parsers).p
    ensures forall j :: i <= j < i + |r.processed| - 1 ==> ProcessedAt(input, parsers, processor, j)
    ensures r.err.Nil? ==>
              |r.processed| == |input| - i &&
              forall j :: i <= j < |input| ==> ProcessedAt(input, parsers, processor, j)
  {
    if i == |input| then LoadResult(Nil, [])
    else match input[i]
      case ReadFailure(e) => LoadResult(Err(Wrapf("error reading CSV record", e)), [])
      case Row(fields) =>
        match ParsePromotion(fields, parsers)
        case Rejected(pe) => LoadResult(Err(Wrapf("error parsing promotion", pe.Message())), [])
        case Accepted(p) =>
          match processor(i, p)
          case Err(e) => LoadResult(Err(Wrapf("error processing promotion", e)), [p])
          case Nil =>
            var rest := LoadFrom(input, parsers, processor, i + 1);
            LoadResult(rest.err, [p] + rest.processed)
  }

  /** One step of `LoadFrom` on a record that parses. */
  lemma LoadFromAccepted(input: seq<ReadItem>, parsers: Parsers, processor: (nat, Promotion) -> Status, i: nat, p: Promotion)
    requires i < |input| && input[i].Row? && ParsePromotion(input[i].fields, parsers) == Accepted(p)
    ensures processor(i, p).Err? ==>
              LoadFrom(input, parsers, processor, i) ==
              LoadResult(Err(Wrapf("error processing promotion", processor(i, p).msg)), [p])
    ensures processor(i, p).Nil? ==>
              LoadFrom(input, parsers, processor, i) ==
              LoadResult(LoadFrom(input, parsers, processor, i + 1).err,
                         [p] + LoadFrom(input, parsers, processor, i + 1).processed)
  {
  }

  /** `ProcessPromotionsFromCSV(filename, processor, numWorkers)` where opening the file
      gives `open` and the file holds `input`. */
  function Load(open: Status, input: seq<ReadItem>, parsers: Parsers, processor: (nat, Promotion) -> Status): LoadResult
  {
    if open.Err? then LoadResult(Err(Wrapf("failed to open file", open.msg)), [])
    else LoadFrom(input, parsers, processor, 0)
  }

  /** Every item from `i` on is a record that parses and is processed without error. */
  ghost predicate AllLoadFrom(input: seq<ReadItem>, parsers: Parsers, processor: (nat, Promotion) -> Status, i: nat)
  {
    forall j :: i <= j < |input| ==> ProcessedAt(input, parsers, processor, j)
  }

  lemma {:induction false} LoadFromNilIff(input: seq<ReadItem>, parsers: Parsers, processor: (nat, Promotion) -> Status, i: nat)
    requires i <= |input|
    ensures LoadFrom(input, parsers, processor, i).err.Nil? <==> AllLoadFrom(input, parsers, processor, i)
    decreases |input| - i
  {
    if i < |input| {
      LoadFromNilIff(input, parsers, processor, i + 1);
      var r := LoadFrom(input, parsers, processor, i);
      if ProcessedAt(input, parsers, processor, i) {
        assert r.err == LoadFrom(input, parsers, processor, i + 1).err;
      } else {
        assert r.err.Err?;
      }
    }
  }

  /** A load succeeds exactly when the file opens, no read error occurs, and every
      record parses and is processed; any single failure makes it fail. */
  lemma LoadNilIff(open: Status, input: seq<ReadItem>, parsers: Parsers, processor: (nat, Promotion) -> Status)
    ensures Load(open, input, parsers, processor).err.Nil? <==>
              open.Nil? && AllLoadFrom(input, parsers, processor, 0)
  {
    if open.Nil? {
      LoadFromNilIff(input, parsers, processor, 0);
    }
  }

  /** On success the processor saw each record's promotion exactly once, in file order;
      on a failed open it saw none. */
  lemma LoadProcessesEachRecordOnce(open: Status, input: seq<ReadItem>, parsers: Parsers, processor: (nat, Promotion) -> Status)
    ensures open.Err? ==> Load(open, input, parsers, processor) == LoadResult(Err(Wrapf("failed to open file", open.msg)), [])
    ensures var r := Load(open, input, parsers, processor);
            r.err.Nil? ==>
              |r.processed| == |input| &&
              r == LoadFrom(input, parsers, processor, 0) &&
              forall j :: 0 <= j < |input| ==>
                ParsesAt(input, parsers, j) && r.processed[j] == ParsePromotion(input[j].fields, parsers).p
  {
  }

  /** The loader has handed `processed` to the processor and stands at item `i`: what
      it returns from the start is what it returns from `i`, after `processed`. */
  predicate Resumes(input: seq<ReadItem>, parsers: Parsers, processor: (nat, Promotion) -> Status,
                    i: nat, processed: seq<Promotion>)
    requires i <= |input|
  {
    LoadFrom(input, parsers, processor, 0) ==
    LoadResult(LoadFrom(input, parsers, processor, i).err,
               processed + LoadFrom(input, parsers, processor, i).processed)
  }

  lemma ResumesAtStart(input: seq<ReadItem>, parsers: Parsers, processor: (nat, Promotion) -> Status)
    ensures Resumes(input, parsers, processor, 0, [])
  {
    assert [] + LoadFrom(input, parsers, processor, 0).processed == LoadFrom(input, parsers, processor, 0).processed;
  }

  /** A read error or a rejected record at `i` ends the load with what was processed so far. */
  lemma ResumesStops(input: seq<ReadItem>, parsers: Parsers, processor: (nat, Promotion) -> Status,
                     i: nat, processed: seq<Promotion>)
    requires i < |input| && Resumes(input, parsers, processor, i, processed)
    requires !ParsesAt(input, parsers, i)
    ensures input[i].ReadFailure? ==>
              LoadFrom(input, parsers, processor, 0) ==
              LoadResult(Err(Wrapf("error reading CSV record", input[i].msg)), processed)
    ensures input[i].Row? ==>
              LoadFrom(input, parsers, processor, 0) ==
              LoadResult(Err(Wrapf("error parsing promotion", ParsePromotion(input[i].fields, parsers).error.Message())),
                         processed)
  {
    assert processed + [] == processed;
  }

  /** An accepted record at `i` is processed next; the load stops if the processor fails
      and otherwise moves on to `i + 1`. */
  lemma ResumesAccepted(input: seq<ReadItem>, parsers: Parsers, processor: (nat, Promotion) -> Status,
                        i: nat, p: Promotion, processed: seq<Promotion>)
    requires i < |input| && Resumes(input, parsers, processor, i, processed)
    requires input[i].Row? && ParsePromotion(input[i].fields, parsers) == Accepted(p)
    ensures processor(i, p).Err? ==>
              LoadFrom(input, parsers, processor, 0) ==
              LoadResult(Err(Wrapf("error processing promotion", processor(i, p).msg)), processed + [p])
    ensures processor(i, p).Nil? ==> Resumes(input, parsers, processor, i + 1, processed + [p])
  {
    LoadFromAccepted(input, parsers, processor, i, p);
    if processor(i, p).Nil? {
      var next := LoadFrom(input, parsers, processor, i + 1);
      assert processed + ([p] + next.processed) == (processed + [p]) + next.processed;
    }
  }

  /** At the end of the input the load succeeds with what was processed. */
  lemma ResumesAtEnd(input: seq<ReadItem>, parsers: Parsers, processor: (nat, Promotion) -> Status,
                     processed: seq<Promotion>)
    requires Resumes(input, parsers, processor, |input|, processed)
    ensures LoadFrom(input, parsers, processor, 0) == LoadResult(Nil, processed)
  {
    assert processed + [] == processed;
  }

  /** `ProcessPromotionsFromCSV`, with the worker pool run sequentially. */
  method ProcessPromotionsFromCSV(open: Status, input: seq<ReadItem>, parsers: Parsers,
                                  processor: (nat, Promotion) -> Status, numWorkers: int)
    returns (err: Status, processed: seq<Promotion>)
    requires numWorkers >= 1
    ensures LoadResult(err, processed) == Load(open, input, parsers, processor)
  {
    if open.Err? {
      return Err(Wrapf("failed to open file", open.msg)), [];
    }
    processed := [];
    ResumesAtStart(input, parsers, processor);
    var i := 0;
    while i < |input|
      invariant 0 <= i <= |input|
      invariant Resumes(input, parsers, processor, i, processed)
    {
      match input[i]
      case ReadFailure(e) =>
        ResumesStops(input, parsers, processor, i, processed);
        return Err(Wrapf("error reading CSV record", e)), processed;
      case Row(fields) =>
        match ParsePromotion(fields, parsers)
        case Rejected(pe) =>
          ResumesStops(input, parsers, processor, i, processed);
          return Err(Wrapf("error parsing promotion", pe.Message())), processed;
        case Accepted(p) =>
          ResumesAccepted(input, parsers, processor, i, p, processed);
          processed := processed + [p];
          var outcome := processor(i, p);
          if outcome.Err? {
            return Err(Wrapf("error processing promotion", outcome.msg)), processed;
          }
      i := i + 1;
    }
    ResumesAtEnd(input, parsers, processor, processed);
    err := Nil;
  }
}
