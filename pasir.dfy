/**
 * The ticket-classification record of a PASIR job: how a progress report is mapped onto the
 * CLASSR_TICKETCLASSIFICATION row, and how the classified tickets are checked and inserted
 * in batches once the classifier reports completion.
 */
module Pasir {
  import opened Wrappers
  import opened Tickets
  import Paths

  /** One statement sent to the ticket database, in the order it was sent. */
  datatype Write =
    | Progress(id: int, state: string, text: string, percentage: int)
    | TicketCount(id: int, count: int)
    /** The new CLASSR_TICKETCLASSIFICATION row of `create`; the database assigns its id. */
    | Registered(classifierUid: string, jobUid: string, clientId: string, dataSource: string,
                 fromTimestamp: string, toTimestamp: string, text: string, count: int)

  /** The state as reported, with `'Progress'` renamed to `'Running'`. */
  function NormalisedState(state: string): (s: string)
    ensures s == "Running" <==> state == "Progress" || state == "Running"
    ensures state != "Progress" ==> s == state
  {
    if state == "Progress" then "Running" else state
  }

  /**
   * Whether a report finishes the classification: 100 percent, not an error, and a positive
   * ticket count. A count never set is Python 2's `None`, and `None > 0` is false.
   */
  predicate TriggersInsert(percentage: int, state: string, ticketCount: Option<int>) {
    percentage == 100 && NormalisedState(state) != "Error" && ticketCount.Some? && ticketCount.value > 0
  }

  /** The state written to the database for a report. */
  function WrittenState(percentage: int, state: string, ticketCount: Option<int>): (s: string)
    ensures state == "Error" ==> s == "Error"
    ensures s == "Done" <==> TriggersInsert(percentage, state, ticketCount) || state == "Done"
    ensures s != "Progress"
  {
    if TriggersInsert(percentage, state, ticketCount) then "Done" else NormalisedState(state)
  }

  /** An error report is written as an error and never starts the insert. */
  lemma ErrorNeverInserts(percentage: int, text: string, ticketCount: Option<int>)
    ensures !TriggersInsert(percentage, "Error", ticketCount)
    ensures WrittenState(percentage, "Error", ticketCount) == "Error"
  {
  }

  /** Whether some batch of `count` batches is the one the database rejects. */
  predicate BatchFails(failingBatch: Option<nat>, count: nat) {
    failingBatch.Some? && failingBatch.value < count
  }

  /** The batches that reach the database: all of them, or those before the rejected one. */
  function InsertedBatches<T>(bs: seq<seq<T>>, failingBatch: Option<nat>): (r: seq<seq<T>>)
    ensures BatchFails(failingBatch, |bs|) ==> |r| == failingBatch.value
    ensures !BatchFails(failingBatch, |bs|) ==> r == bs
    ensures r <= bs
  {
    if BatchFails(failingBatch, |bs|) then bs[..failingBatch.value] else bs
  }

  /** `threading.Semaphore`: a counter of free permits. */
  class Semaphore {
    var permits: nat

    constructor (n: nat)
      ensures permits == n
    {
      permits := n;
    }

    /** Taking a permit; in this single-threaded model one must be free. */
    method Acquire()
      requires permits > 0
      modifies this
      ensures permits == old(permits) - 1
    {
      permits := permits - 1;
    }

    method Release()
      modifies this
      ensures permits == old(permits) + 1
    {
      permits := permits + 1;
    }
  }

  /** The CSV files of the work directories, by path; a missing key is a missing file. */
  class CsvFiles {
    var files: map<string, seq<Ticket>>

    constructor ()
      ensures files == map[]
    {
      files := map[];
    }
  }

  /**
   * The ticket database as far as this model sees it: the statements written, and the
   * ticket batches inserted. Every statement is committed at once (autocommit).
   * `failingBatch` is the index of the batch within an insert that the database rejects.
   */
  class PasirDatabase {
    var log: seq<Write>
    var inserted: seq<seq<Ticket>>
    const failingBatch: Option<nat>

    constructor (failingBatch: Option<nat>)
      ensures log == [] && inserted == [] && this.failingBatch == failingBatch
    {
      log := [];
      inserted := [];
      this.failingBatch := failingBatch;
    }

    method Execute(w: Write)
      modifies this
      ensures log == old(log) + [w] && inserted == old(inserted)
    {
      log := log + [w];
    }

    /**
     * `sql_using_data_frame`: the rows are sent in the batches `rows[x*b:(x+1)*b]`,
     * x = 0 .. n/b; the first rejected batch ends the insert, and earlier batches stay.
     */
    method SqlUsingDataFrame(rows: seq<Ticket>, b: nat) returns (o: Outcome)
      requires b > 0
      modifies this
      ensures var bs := Batches(rows, b);
        inserted == old(inserted) + InsertedBatches(bs, failingBatch) &&
        (o.Fail? <==> BatchFails(failingBatch, |bs|))
      ensures log == old(log)
    {
      var bs := Batches(rows, b);
      var count := BatchCount(|rows|, b);
      for x := 0 to count
        invariant inserted == old(inserted) + bs[..x]
        invariant !BatchFails(failingBatch, x)
        invariant log == old(log)
      {
        if failingBatch == Some(x) {
          return Fail("batch insert rejected");
        }
        inserted := inserted + [Slice(rows, x * b, (x + 1) * b)];
        assert bs[..x + 1] == bs[..x] + [bs[x]];
      }
      assert bs[..count] == bs;
      return Pass;
    }
  }

  /** A ticket classification in progress: one CLASSR_TICKETCLASSIFICATION row. */
  class PasirTicketClassification {
    const classificationId: int
    const classifierUid: string
    const clientId: string
    const dataSource: string
    const fromTimestamp: string
    const toTimestamp: string
    const createdOn: string
    /** The work directory of the job this classification belongs to. */
    const workDir: string
    var ticketCount: Option<int>
    const db: PasirDatabase
    const gate: Semaphore
    const fs: CsvFiles

    constructor (classificationId: int, classifierUid: string, clientId: string, dataSource: string,
                 fromTimestamp: string, toTimestamp: string, createdOn: string, workDir: string,
                 db: PasirDatabase, gate: Semaphore, fs: CsvFiles)
      ensures this.classificationId == classificationId && this.classifierUid == classifierUid
      ensures this.clientId == clientId && this.dataSource == dataSource
      ensures this.fromTimestamp == fromTimestamp && this.toTimestamp == toTimestamp
      ensures this.createdOn == createdOn && this.workDir == workDir
      ensures this.db == db && this.gate == gate && this.fs == fs
      ensures ticketCount == None
    {
      this.classificationId := classificationId;
      this.classifierUid := classifierUid;
      this.clientId := clientId;
      this.dataSource := dataSource;
      this.fromTimestamp := fromTimestamp;
      this.toTimestamp := toTimestamp;
      this.createdOn := createdOn;
      this.workDir := workDir;
      this.db := db;
      this.gate := gate;
      this.fs := fs;
      ticketCount := None;
    }

    /** `<work_dir>/classified-tickets.csv`, the classifier's output. */
    function OutCsv(): string {
      Paths.Join(workDir, "classified-tickets.csv")
    }

    /** What a progress report raises: only a finishing report whose output file is missing. */
    function ReportOutcome(percentage: int, state: string): Outcome
      reads this, fs
    {
      if TriggersInsert(percentage, state, ticketCount) && OutCsv() !in fs.files then
        Fail("Classified tickets not found under " + OutCsv())
      else Pass
    }

    /** The statements a finishing report writes once the checked rows have been sent. */
    function FinishWrites(text: string, failed: bool): seq<Write> {
      (if failed then [Progress(classificationId, "Error", "Failed inserting tickets", 100)] else [])
      + [Progress(classificationId, "Done", text, 100)]
    }

    /**
     * The effect of one progress report between the old and the current state: a report that
     * does not finish the classification writes its (renamed) state; a finishing one checks
     * and inserts the classified tickets and then writes `'Done'` (even after a failed insert
     * wrote `'Error'`), or raises when the output file is missing; the semaphore ends as it began.
     */
    twostate predicate Reported(percentage: int, text: string, state: string, o: Outcome)
      reads this, db, gate, fs
    {
      o == old(ReportOutcome(percentage, state)) &&
      gate.permits == old(gate.permits) &&
      if !TriggersInsert(percentage, state, old(ticketCount)) then
        fs.files == old(fs.files) && db.inserted == old(db.inserted) &&
        db.log == old(db.log) + [Progress(classificationId, NormalisedState(state), text, percentage)]
      else if OutCsv() !in old(fs.files) then
        fs.files == old(fs.files) && db.inserted == old(db.inserted) && db.log == old(db.log)
      else
        var rows := CheckedAll(old(fs.files)[OutCsv()], classificationId);
        var bs := Batches(rows, BatchSize);
        fs.files == old(fs.files)[OutCsv() := rows] &&
        db.inserted == old(db.inserted) + InsertedBatches(bs, db.failingBatch) &&
        db.log == old(db.log) + FinishWrites(text, BatchFails(db.failingBatch, |bs|))
    }

    /** `_update_progress`, with the effect `Reported` states. */
    method UpdateProgress(percentage: int, text: string, state: string) returns (o: Outcome)
      requires TriggersInsert(percentage, state, ticketCount) ==> gate.permits > 0
      modifies db, gate, fs
      decreases if state == "Error" then 0 else 2
      ensures Reported(percentage, text, state, o)
    {
      var s := NormalisedState(state);
      if percentage == 100 && s != "Error" && ticketCount.Some? && ticketCount.value > 0 {
        s := "Done";
        o := InsertClassifiedTickets();
        if o.Fail? {
          return;
        }
      } else {
        o := Pass;
      }
      db.Execute(Progress(classificationId, s, text, percentage));
    }

    /**
     * `_insert_classified_tickets`: the output file must exist; its rows get the data-quality
     * columns, are written back, and are inserted while holding the insert semaphore. A failed
     * insert is reported as an `'Error'` progress and not raised.
     */
    method InsertClassifiedTickets() returns (o: Outcome)
      requires gate.permits > 0
      modifies db, gate, fs
      decreases 1
      ensures gate.permits == old(gate.permits)
      ensures OutCsv() !in old(fs.files) ==>
        o == Fail("Classified tickets not found under " + OutCsv()) &&
        fs.files == old(fs.files) && db.inserted == old(db.inserted) && db.log == old(db.log)
      ensures OutCsv() in old(fs.files) ==>
        var rows := CheckedAll(old(fs.files)[OutCsv()], classificationId);
        var bs := Batches(rows, BatchSize);
        o == Pass &&
        fs.files == old(fs.files)[OutCsv() := rows] &&
        db.inserted == old(db.inserted) + InsertedBatches(bs, db.failingBatch) &&
        db.log == old(db.log) +
          (if BatchFails(db.failingBatch, |bs|) then [Progress(classificationId, "Error", "Failed inserting tickets", 100)] else [])
    {
      var outCsv := OutCsv();
      if outCsv !in fs.files {
        return Fail("Classified tickets not found under " + outCsv);
      }
      var table := fs.files[outCsv];
      var rows := new Ticket[|table|](i requires 0 <= i < |table| => table[i]);
      assert rows[..] == table;
      CheckDataQuality(rows, classificationId);
      fs.files := fs.files[outCsv := rows[..]];
      gate.Acquire();
      var r := db.SqlUsingDataFrame(rows[..], BatchSize);
      if r.Fail? {
        var _ := UpdateProgress(100, "Failed inserting tickets", "Error");
      }
      gate.Release();
      return Pass;
    }
  }

  /** A successful finishing report leaves every checked row in the database, in order. */
  lemma FinishInsertsAllRows(rows: seq<Ticket>, classificationId: int, failingBatch: Option<nat>)
    requires !BatchFails(failingBatch, |Batches(CheckedAll(rows, classificationId), BatchSize)|)
    ensures Flatten(InsertedBatches(Batches(CheckedAll(rows, classificationId), BatchSize), failingBatch))
      == CheckedAll(rows, classificationId)
  {
    BatchesCoverRows(CheckedAll(rows, classificationId), BatchSize);
  }
}
