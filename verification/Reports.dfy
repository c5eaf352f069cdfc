/** What a worker's pass reports about the payouts it took. */
module Reports {
  import opened Tables
  import opened Batches

  datatype Answer = Accepted(gatewayRef: string) | Declined | Interrupted

  /** What a pass meets: the rows its two SELECTs pass over (locked by others, or too recent), what the gateway
      answers about each payout, and before which turns the pass finds itself cancelled. */
  datatype World = World(recent: set<Uuid>, busy: set<Uuid>, gateway: Uuid -> Answer, cancelled: nat -> bool)

  /** How far the pass got with a payout: its transaction could not be read, the gateway answered, or
      the pass ended before its turn. */
  datatype Fate = Unread | Asked(answer: Answer) | Skipped

  /** One payout the pass claimed, how far it got, and the status in which the worker left it. */
  datatype Report = Report(id: Uuid, fate: Fate, end: Status) {
    predicate Accepted() {
      fate.Asked? && fate.answer.Accepted?
    }

    predicate Interrupted() {
      fate == Asked(Answer.Interrupted)
    }
  }

  /** The only ways a payout can leave a pass. An accepted one is never given back or failed, a declined or
      unreadable one is failed or stuck, an interrupted or skipped one is given back or stuck. */
  predicate Outcome(rep: Report) {
    match rep.fate
    case Asked(Accepted(_)) => rep.end == Completed || rep.end == ManualReview || rep.end == Processing
    case Asked(Declined) => rep.end == Failed || rep.end == Processing
    case Unread => rep.end == Failed || rep.end == Processing
    case _ => rep.end == Pending || rep.end == Processing
  }

  predicate Broken(report: seq<Report>) {
    exists k | 0 <= k < |report| :: report[k].Interrupted()
  }

  /** The pass reached every payout and no call was interrupted. */
  predicate Whole(report: seq<Report>) {
    forall k | 0 <= k < |report| :: report[k].fate != Skipped && !report[k].Interrupted()
  }

  /** The status due when no write is lost. After an interrupted call the rest is left PROCESSING; on a
      cancellation it is requeued. */
  function Due(fate: Fate, broken: bool): Status {
    match fate
    case Asked(Accepted(_)) => Completed
    case Asked(Declined) => Failed
    case Asked(Interrupted) => Pending
    case Unread => Failed
    case Skipped => if broken then Processing else Pending
  }

  predicate Fulfilled(report: seq<Report>) {
    forall k | 0 <= k < |report| :: report[k].end == Due(report[k].fate, Broken(report))
  }

  /** An answered payout is not left half way. */
  predicate Firm(rep: Report) {
    && (rep.Accepted() ==> rep.end == Completed || rep.end == ManualReview)
    && (rep.fate == Asked(Declined) ==> rep.end == Failed)
  }

  /** A payout is skipped exactly when the pass was cancelled by then, or an earlier call interrupted. */
  ghost predicate Stopped(report: seq<Report>, world: World, k: nat)
    requires k < |report|
  {
    exists j: nat | j <= k :: world.cancelled(j) || (j < k && report[j].Interrupted())
  }

  /** What was heard is what the gateway said. Without a fault every transaction could be read, and every
      answer was acted upon. */
  ghost predicate Heard(report: seq<Report>, world: World, smooth: bool) {
    forall k | 0 <= k < |report| ::
      match report[k].fate
      case Asked(answer) => answer == world.gateway(report[k].id) && (smooth ==> Firm(report[k]))
      case Unread => !smooth
      case Skipped => true
  }

  /** The report is what the world makes of the pass. */
  ghost predicate Obeys(report: seq<Report>, world: World, smooth: bool) {
    && Heard(report, world, smooth)
    && (forall k: nat | k < |report| :: report[k].fate == Skipped <==> Stopped(report, world, k))
    && (forall k | 0 <= k < |report| :: report[k].id !in world.busy)
  }

  /** Turns so far: none cancelled, and only the last one may have been interrupted. */
  ghost predicate Running(report: seq<Report>, world: World) {
    && (forall k: nat | k < |report| :: !world.cancelled(k))
    && (forall k | 0 <= k < |report| - 1 :: !report[k].Interrupted())
  }

  lemma HeardSnoc(report: seq<Report>, rep: Report, world: World, before: bool, smooth: bool)
    requires Heard(report, world, before) && Running(report, world) && !Broken(report) && !world.cancelled(|report|)
    requires (smooth ==> before) && (rep.fate.Asked? ==> rep.fate.answer == world.gateway(rep.id))
    requires (rep.fate == Unread ==> !smooth) && (smooth ==> Firm(rep))
    ensures Heard(report + [rep], world, smooth) && Running(report + [rep], world)
  {
    var more := report + [rep];
    assert forall k | 0 <= k < |report| :: more[k] == report[k];
  }

  lemma ObeysRest(report: seq<Report>, rows: seq<Selected>, end: Status, world: World, before: bool, smooth: bool)
    requires Heard(report, world, before) && (smooth ==> before) && Running(report, world) && NoneSkipped(report)
    requires rows != [] ==> world.cancelled(|report|) || Broken(report)
    requires forall k | 0 <= k < |report| :: report[k].id !in world.busy
    requires forall k | 0 <= k < |rows| :: rows[k].id !in world.busy
    ensures Obeys(report + Unsent(rows, end), world, smooth)
  {
    var more := report + Unsent(rows, end);
    assert forall k | 0 <= k < |report| :: more[k] == report[k];
    assert forall k | |report| <= k < |more| :: more[k] == Report(rows[k - |report|].id, Skipped, end);
    forall k: nat | k < |more| ensures more[k].fate == Skipped <==> Stopped(more, world, k) {
      if k >= |report| && !world.cancelled(|report|) {
        var j :| 0 <= j < |report| && report[j].Interrupted();
        assert more[j].Interrupted();
      }
    }
  }

  predicate NoneSkipped(report: seq<Report>) {
    forall k | 0 <= k < |report| :: report[k].fate != Skipped
  }

  lemma FulfilledSnoc(report: seq<Report>, rep: Report)
    requires NoneSkipped(report) && rep.fate != Skipped
    ensures NoneSkipped(report + [rep]) && (Broken(report + [rep]) <==> Broken(report) || rep.Interrupted())
    ensures Fulfilled(report + [rep]) <==> Fulfilled(report) && rep.end == Due(rep.fate, false)
  {
    var more := report + [rep];
    assert more[|report|] == rep;
    assert forall k | 0 <= k < |report| :: more[k] == report[k];
  }

  function Unsent(rows: seq<Selected>, end: Status): seq<Report> {
    seq(|rows|, i requires 0 <= i < |rows| => Report(rows[i].id, Skipped, end))
  }

  lemma FulfilledRest(report: seq<Report>, rows: seq<Selected>, end: Status)
    requires NoneSkipped(report)
    ensures Broken(report + Unsent(rows, end)) <==> Broken(report)
    ensures Fulfilled(report) && (rows == [] || end == Due(Skipped, Broken(report))) ==>
              Fulfilled(report + Unsent(rows, end))
  {
    var more := report + Unsent(rows, end);
    assert forall k | 0 <= k < |report| :: more[k] == report[k];
    assert forall k | |report| <= k < |more| :: more[k] == Report(rows[k - |report|].id, Skipped, end);
  }

  /** A pass that stopped is not whole, one that did not is. */
  lemma WholeIff(report: seq<Report>, more: seq<Report>)
    requires NoneSkipped(report) && report <= more && forall k | |report| <= k < |more| :: more[k].fate == Skipped
    ensures Whole(more) <==> !Broken(report) && |more| == |report|
  {
    assert forall k | 0 <= k < |report| :: more[k] == report[k];
    if Broken(report) {
      var k :| 0 <= k < |report| && report[k].Interrupted();
      assert more[k].Interrupted();
    }
    if |more| > |report| {
      assert more[|report|].fate == Skipped;
    }
  }

  // ---- who is named, who was accepted ----

  predicate Named(report: seq<Report>, p: Uuid) {
    exists k | 0 <= k < |report| :: report[k].id == p
  }

  predicate SentIn(report: seq<Report>, p: Uuid) {
    exists k | 0 <= k < |report| :: report[k].id == p && report[k].Accepted()
  }

  lemma UnsentAdds(report: seq<Report>, rows: seq<Selected>, end: Status, p: Uuid)
    ensures SentIn(report + Unsent(rows, end), p) <==> SentIn(report, p)
  {
    var more := report + Unsent(rows, end);
    if SentIn(report, p) {
      var k :| 0 <= k < |report| && report[k].id == p && report[k].Accepted();
      assert more[k] == report[k];
    }
    if SentIn(more, p) {
      var k :| 0 <= k < |more| && more[k].id == p && more[k].Accepted();
      assert k < |report| && more[k] == report[k];
    }
  }

  lemma NamedAll(claimed: seq<Selected>, report: seq<Report>)
    requires |report| == |claimed| && forall k | 0 <= k < |report| :: report[k].id == claimed[k].id
    ensures forall p: Uuid :: Named(report, p) <==> Lists(claimed, p)
  {
    forall p: Uuid ensures Named(report, p) <==> Lists(claimed, p) {
      if Lists(claimed, p) {
        var k :| 0 <= k < |claimed| && claimed[k].id == p;
        assert report[k].id == p;
      }
    }
  }

  predicate Distinct(rows: seq<Selected>) {
    forall i, j | 0 <= i < j < |rows| :: rows[i].id != rows[j].id
  }

  lemma SentInSnoc(report: seq<Report>, rep: Report, p: Uuid)
    ensures SentIn(report + [rep], p) <==> SentIn(report, p) || (p == rep.id && rep.Accepted())
  {
    var more := report + [rep];
    if SentIn(report, p) {
      var k :| 0 <= k < |report| && report[k].id == p && report[k].Accepted();
      assert more[k] == report[k];
    }
    assert more[|report|] == rep;
  }

  lemma NotYetReported(claimed: seq<Selected>, report: seq<Report>)
    requires Distinct(claimed) && |report| < |claimed| && forall k | 0 <= k < |report| :: report[k].id == claimed[k].id
    ensures !SentIn(report, claimed[|report|].id)
  {
  }
}
