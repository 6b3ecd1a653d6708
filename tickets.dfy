/**
 * Classified ticket rows of a PASIR job: the data-quality rule applied before they are
 * written back to the ticket database, and the slicing of rows into insert batches.
 */
module Tickets {
  import opened Wrappers

  /**
   * One row of `classified-tickets.csv`. `None` stands for a null (NaN) cell; the six scores
   * are the classifier's per-class values.
   */
  datatype Ticket = Ticket(
    id: string,
    description: Option<string>,
    resolution: Option<string>,
    cleanDescription: Option<string>,
    cleanResolution: Option<string>,
    ticketClass: Option<string>,
    disk: Option<real>,
    nonactionable: Option<real>,
    other: Option<real>,
    performance: Option<real>,
    process: Option<real>,
    serverUnavailable: Option<real>,
    classificationId: Option<int>,
    clean: string,
    qualityIssue: Option<string>)

  /** The data-quality checks, each naming the null cell(s) it looks for. */
  datatype Rule =
    | EmptyCleanDescription
    | EmptyCleanResolution
    | EmptyResolution
    | EmptyDescription
    | EmptyDescriptionAndResolution

  /** The checks in the order they are applied; a later match overwrites an earlier label. */
  const QualityRules: seq<Rule> :=
    [EmptyCleanDescription, EmptyCleanResolution, EmptyResolution, EmptyDescription, EmptyDescriptionAndResolution]

  predicate Matches(rule: Rule, t: Ticket) {
    match rule
    case EmptyCleanDescription => t.cleanDescription.None?
    case EmptyCleanResolution => t.cleanResolution.None?
    case EmptyResolution => t.resolution.None?
    case EmptyDescription => t.description.None?
    case EmptyDescriptionAndResolution => t.description.None? && t.resolution.None?
  }

  function Label(rule: Rule): string {
    match rule
    case EmptyCleanDescription => "Empty description after cleansing"
    case EmptyCleanResolution => "Empty resolution after cleansing"
    case EmptyResolution => "Empty resolution"
    case EmptyDescription => "Empty description"
    case EmptyDescriptionAndResolution => "Empty description and resolution"
  }

  /** The columns added before any check: the classification id, CLEAN='Y', no QUALITY_ISSUE. */
  function Prepared(t: Ticket, classificationId: int): Ticket {
    t.(classificationId := Some(classificationId), clean := "Y", qualityIssue := None)
  }

  /** One check on one row: a match sets CLEAN='N' and QUALITY_ISSUE to the check's label. */
  function ApplyRule(rule: Rule, t: Ticket): Ticket {
    if Matches(rule, t) then t.(clean := "N", qualityIssue := Some(Label(rule))) else t
  }

  /** The checks `rules` applied to one row, first to last. */
  function ApplyRules(rules: seq<Rule>, t: Ticket): Ticket
    decreases |rules|
  {
    if rules == [] then t else ApplyRule(rules[|rules| - 1], ApplyRules(rules[..|rules| - 1], t))
  }

  /** A row with CLEAN='N' loses its TICKETCLASS and all six scores. */
  function NullIfUnclean(t: Ticket): Ticket {
    if t.clean == "N" then
      t.(ticketClass := None, disk := None, nonactionable := None, other := None,
         performance := None, process := None, serverUnavailable := None)
    else t
  }

  /** Whether any of the four cells the checks look at is null. */
  predicate HasNullCell(t: Ticket) {
    t.cleanDescription.None? || t.cleanResolution.None? || t.resolution.None? || t.description.None?
  }

  /**
   * The intended result for one row, stated directly: the most specific issue wins
   * (the checks run from least to most specific, so the last match is kept).
   */
  function Checked(t: Ticket, classificationId: int): Ticket {
    var issue :=
      if t.description.None? && t.resolution.None? then Some("Empty description and resolution")
      else if t.description.None? then Some("Empty description")
      else if t.resolution.None? then Some("Empty resolution")
      else if t.cleanResolution.None? then Some("Empty resolution after cleansing")
      else if t.cleanDescription.None? then Some("Empty description after cleansing")
      else None;
    if HasNullCell(t) then
      t.(classificationId := Some(classificationId), clean := "N", qualityIssue := issue,
         ticketClass := None, disk := None, nonactionable := None, other := None,
         performance := None, process := None, serverUnavailable := None)
    else
      t.(classificationId := Some(classificationId), clean := "Y", qualityIssue := None)
  }

  /** Running the checks in order and then nulling unclean rows gives exactly `Checked`. */
  lemma {:induction false} RulesGiveChecked(t: Ticket, classificationId: int)
    ensures NullIfUnclean(ApplyRules(QualityRules, Prepared(t, classificationId))) == Checked(t, classificationId)
  {
    var p := Prepared(t, classificationId);
    var q := QualityRules;
    assert q[..1] == [EmptyCleanDescription] && q[..1][..0] == [];
    assert q[..2] == [EmptyCleanDescription, EmptyCleanResolution] && q[..2][..1] == q[..1];
    assert q[..3][..2] == q[..2] && q[..4][..3] == q[..3] && q[..5][..4] == q[..4] && q[..5] == q;
    assert ApplyRules(q[..1][..0], p) == p;
    var a1 := ApplyRules(q[..1], p);
    assert a1 == ApplyRule(EmptyCleanDescription, p);
    var a2 := ApplyRules(q[..2], p);
    assert a2 == ApplyRule(EmptyCleanResolution, a1);
    var a3 := ApplyRules(q[..3], p);
    assert a3 == ApplyRule(EmptyResolution, a2);
    var a4 := ApplyRules(q[..4], p);
    assert a4 == ApplyRule(EmptyDescription, a3);
    var a5 := ApplyRules(q, p);
    assert a5 == ApplyRule(EmptyDescriptionAndResolution, a4);
  }

  /** CLEAN is 'N' exactly when one of the four checked cells is null, and 'Y' otherwise. */
  lemma CleanIffNoNullCell(t: Ticket, classificationId: int)
    ensures Checked(t, classificationId).clean == "N" <==> HasNullCell(t)
    ensures Checked(t, classificationId).clean == "Y" <==> !HasNullCell(t)
    ensures Checked(t, classificationId).qualityIssue.Some? <==> HasNullCell(t)
  {
  }

  /** Both DESCRIPTION and RESOLUTION null: the last check's label is the one kept. */
  lemma BothEmptyLabel(t: Ticket, classificationId: int)
    requires t.description.None? && t.resolution.None?
    ensures Checked(t, classificationId).qualityIssue == Some("Empty description and resolution")
  {
  }

  /** Unclean rows lose class and scores; clean rows keep every original column. */
  lemma UncleanRowsNulled(t: Ticket, classificationId: int)
    ensures var c := Checked(t, classificationId);
      c.clean == "N" ==>
        c.ticketClass.None? && c.disk.None? && c.nonactionable.None? && c.other.None? &&
        c.performance.None? && c.process.None? && c.serverUnavailable.None?
    ensures var c := Checked(t, classificationId);
      c.clean == "Y" ==> c == Prepared(t, classificationId)
    ensures var c := Checked(t, classificationId);
      c.id == t.id && c.description == t.description && c.resolution == t.resolution &&
      c.cleanDescription == t.cleanDescription && c.cleanResolution == t.cleanResolution
  {
  }

  function CheckedAll(rows: seq<Ticket>, classificationId: int): (r: seq<Ticket>)
    ensures |r| == |rows|
    ensures forall i :: 0 <= i < |rows| ==> r[i] == Checked(rows[i], classificationId)
  {
    seq(|rows|, i requires 0 <= i < |rows| => Checked(rows[i], classificationId))
  }

  /**
   * The data-quality pass over the whole table, column assignment by column assignment:
   * the new columns first, then each check over every row, then the nulling of unclean rows.
   */
  method CheckDataQuality(rows: array<Ticket>, classificationId: int)
    modifies rows
    ensures rows[..] == CheckedAll(old(rows[..]), classificationId)
  {
    PrepareAll(rows, classificationId);
    ghost var prepared := rows[..];
    ApplyQualityRules(rows);
    ghost var labelled := rows[..];
    NullAllUnclean(rows);
    forall j | 0 <= j < rows.Length
      ensures rows[j] == Checked(old(rows[j]), classificationId)
    {
      assert prepared[j] == Prepared(old(rows[j]), classificationId);
      assert labelled[j] == ApplyRules(QualityRules, prepared[j]);
      RulesGiveChecked(old(rows[j]), classificationId);
    }
  }

  /** The new columns: the classification id, CLEAN='Y' and an empty QUALITY_ISSUE on every row. */
  method PrepareAll(rows: array<Ticket>, classificationId: int)
    modifies rows
    ensures forall j :: 0 <= j < rows.Length ==> rows[j] == Prepared(old(rows[j]), classificationId)
  {
    for i := 0 to rows.Length
      invariant forall j :: 0 <= j < i ==> rows[j] == Prepared(old(rows[j]), classificationId)
      invariant forall j :: i <= j < rows.Length ==> rows[j] == old(rows[j])
    {
      rows[i] := Prepared(rows[i], classificationId);
    }
  }

  /** The five checks, each over the whole table before the next. */
  method ApplyQualityRules(rows: array<Ticket>)
    modifies rows
    ensures forall j :: 0 <= j < rows.Length ==> rows[j] == ApplyRules(QualityRules, old(rows[j]))
  {
    for k := 0 to |QualityRules|
      invariant forall j :: 0 <= j < rows.Length ==> rows[j] == ApplyRules(QualityRules[..k], old(rows[j]))
    {
      ApplyRuleToAll(rows, QualityRules[k]);
      assert QualityRules[..k + 1][..k] == QualityRules[..k];
    }
    assert QualityRules[..|QualityRules|] == QualityRules;
  }

  /** TICKETCLASS and the six scores are nulled on every row with CLEAN='N'. */
  method NullAllUnclean(rows: array<Ticket>)
    modifies rows
    ensures forall j :: 0 <= j < rows.Length ==> rows[j] == NullIfUnclean(old(rows[j]))
  {
    for i := 0 to rows.Length
      invariant forall j :: 0 <= j < i ==> rows[j] == NullIfUnclean(old(rows[j]))
      invariant forall j :: i <= j < rows.Length ==> rows[j] == old(rows[j])
    {
      rows[i] := NullIfUnclean(rows[i]);
    }
  }

  /** `out_tickets.loc[<rule matches>, ...] = ...` for one check. */
  method ApplyRuleToAll(rows: array<Ticket>, rule: Rule)
    modifies rows
    ensures forall j :: 0 <= j < rows.Length ==> rows[j] == ApplyRule(rule, old(rows[j]))
  {
    for i := 0 to rows.Length
      invariant forall j :: 0 <= j < i ==> rows[j] == ApplyRule(rule, old(rows[j]))
      invariant forall j :: i <= j < rows.Length ==> rows[j] == old(rows[j])
    {
      rows[i] := ApplyRule(rule, rows[i]);
    }
  }

  // ---------------------------------------------------------------------------------------
  // Insert batches

  /** `config.BATCH_SIZE`'s default. */
  const BatchSize: nat := 1000

  function Min(a: int, b: int): int { if a <= b then a else b }

  /** `rows[lo:hi]` for non-negative bounds: both are clipped to the length. */
  function Slice<T>(rows: seq<T>, lo: nat, hi: nat): seq<T> {
    rows[Min(lo, |rows|)..if Min(hi, |rows|) < Min(lo, |rows|) then Min(lo, |rows|) else Min(hi, |rows|)]
  }

  /** Number of loop rounds: `int(math.ceil(n / b) + 1)` with Python 2's floor division of ints. */
  function BatchCount(n: nat, b: nat): nat
    requires b > 0
  {
    n / b + 1
  }

  /** The batches `rows[x*b:(x+1)*b]` for x in 0 .. n/b. */
  function Batches<T>(rows: seq<T>, b: nat): (r: seq<seq<T>>)
    requires b > 0
    ensures |r| == BatchCount(|rows|, b)
  {
    seq(BatchCount(|rows|, b), x requires 0 <= x < BatchCount(|rows|, b) => Slice(rows, x * b, x * b + b))
  }

  function Flatten<T>(ss: seq<seq<T>>): seq<T>
    decreases |ss|
  {
    if ss == [] then [] else Flatten(ss[..|ss| - 1]) + ss[|ss| - 1]
  }

  lemma DivBounds(n: nat, b: nat)
    requires b > 0
    ensures (n / b) * b <= n < (n / b + 1) * b
  {
  }

  lemma {:induction false} MulMono(x: nat, y: nat, b: nat)
    requires x <= y
    ensures x * b <= y * b
  {
  }

  /** Batch x starts at x*b rows. */
  lemma BatchAt<T>(rows: seq<T>, b: nat, x: nat, lo: nat)
    requires b > 0 && x < BatchCount(|rows|, b) && lo == x * b
    ensures Batches(rows, b)[x] == Slice(rows, lo, lo + b)
  {
  }

  lemma SliceFrom<T>(rows: seq<T>, lo: nat, hi: nat)
    requires lo <= |rows| && lo <= hi
    ensures Slice(rows, lo, hi) == rows[lo..Min(hi, |rows|)]
  {
  }

  /** The batch before x starts within the rows and is b rows before x*b. */
  lemma PreviousStart(n: nat, b: nat, x: nat, lo: nat)
    requires b > 0 && 0 < x <= n / b + 1 && lo == x * b
    ensures b <= lo && lo - b == (x - 1) * b && lo - b <= n
  {
    MulMono(x - 1, n / b, b);
    DivBounds(n, b);
  }

  /** The first x batches, which end at row lo = x*b, hold exactly the first min(lo, n) rows, in order. */
  lemma {:induction false} FlattenPrefixAt<T>(rows: seq<T>, b: nat, x: nat, lo: nat)
    requires b > 0 && x <= BatchCount(|rows|, b) && lo == x * b
    ensures Flatten(Batches(rows, b)[..x]) == rows[..Min(lo, |rows|)]
  {
    if x > 0 {
      var bs := Batches(rows, b);
      PreviousStart(|rows|, b, x, lo);
      var start := lo - b;
      FlattenPrefixAt(rows, b, x - 1, start);
      BatchAt(rows, b, x - 1, start);
      SliceFrom(rows, start, lo);
      var top := Min(lo, |rows|);
      assert bs[..x][..x - 1] == bs[..x - 1];
      assert Flatten(bs[..x]) == Flatten(bs[..x - 1]) + rows[start..top];
      assert rows[..start] + rows[start..top] == rows[..top];
    }
  }

  /** The first x batches hold exactly the first min(x*b, n) rows, in order. */
  lemma FlattenPrefix<T>(rows: seq<T>, b: nat, x: nat)
    requires b > 0 && x <= BatchCount(|rows|, b)
    ensures Flatten(Batches(rows, b)[..x]) == rows[..Min(x * b, |rows|)]
  {
    FlattenPrefixAt(rows, b, x, x * b);
  }

  /** Every row lands in exactly one batch, and the batches keep the rows' order. */
  lemma BatchesCoverRows<T>(rows: seq<T>, b: nat)
    requires b > 0
    ensures Flatten(Batches(rows, b)) == rows
  {
    var bs := Batches(rows, b);
    FlattenPrefix(rows, b, |bs|);
    assert bs[..|bs|] == bs;
    DivBounds(|rows|, b);
  }

  lemma SliceLength<T>(rows: seq<T>, lo: nat, hi: nat)
    requires lo <= hi
    ensures |Slice(rows, lo, hi)| == Min(hi, |rows|) - Min(lo, |rows|)
  {
  }

  /** Every batch before the last is full. */
  lemma FullBatch<T>(rows: seq<T>, b: nat, x: nat)
    requires b > 0 && x < |rows| / b
    ensures |Batches(rows, b)[x]| == b
  {
    MulMono(x + 1, |rows| / b, b);
    DivBounds(|rows|, b);
    assert (x + 1) * b == x * b + b;
    BatchAt(rows, b, x, x * b);
    SliceLength(rows, x * b, x * b + b);
  }

  /** The last batch holds the remainder, and is empty exactly when b divides the row count. */
  lemma LastBatch<T>(rows: seq<T>, b: nat)
    requires b > 0
    ensures |Batches(rows, b)[|rows| / b]| == |rows| % b
    ensures Batches(rows, b)[|rows| / b] == [] <==> |rows| % b == 0
  {
    var n, q := |rows|, |rows| / b;
    var lo := q * b;
    DivBounds(n, b);
    assert lo + n % b == n;
    BatchAt(rows, b, q, lo);
    SliceLength(rows, lo, lo + b);
  }
}
