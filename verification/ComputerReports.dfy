/**
 * A session's computer reports to its agent (core/middleware/computer_reports.py).
 *
 * The notice rows of the chat table are the record; `seen`, part of the agent's state, is the
 * sequence of the last notice row read. How a notice's content is parsed is a parameter.
 */
module ComputerReports {
  import opened Wrappers
  import opened ChatStore

  datatype Report = Report(sequence: int, text: string)

  /** The agent's text of a notice that is a computer report, None for any other content. */
  type Parser = string -> Option<string>

  const SEEN_NOTHING := -1

  // ---- Reading and delivering ----

  function NoticesAfter(rows: Rows, seen: int): Rows {
    if rows == [] then []
    else
      var last := rows[|rows| - 1];
      var before := NoticesAfter(rows[..|rows| - 1], seen);
      if last.source == NOTIFICATION && last.sequence > seen then before + [last] else before
  }

  /** `reports`, and the row's own report when it is one. */
  function WithReport(reports: seq<Report>, row: Row, parse: Parser): seq<Report> {
    match parse(row.message.content)
    case None => reports
    case Some(text) => reports + [Report(row.sequence, text)]
  }

  function ReportsIn(notices: Rows, parse: Parser): seq<Report> {
    if notices == [] then []
    else WithReport(ReportsIn(notices[..|notices| - 1], parse), notices[|notices| - 1], parse)
  }

  /** The reports after `seen`, and the sequence of the last notice row read. */
  function UnreadReports(rows: Rows, seen: int, parse: Parser): (seq<Report>, Option<int>) {
    var notices := NoticesAfter(rows, seen);
    (ReportsIn(notices, parse), if notices == [] then None else Some(notices[|notices| - 1].sequence))
  }

  predicate HasUnreadReports(rows: Rows, seen: int, parse: Parser) {
    UnreadReports(rows, seen, parse).0 != []
  }

  /** What the agent's state holds: the mark, and the reports it has been given. */
  datatype Agent = Agent(seen: int, delivered: seq<Report>)

  const NewAgent := Agent(SEEN_NOTHING, [])

  function Deliver(a: Agent, reports: seq<Report>, last: Option<int>): Agent {
    match last
    case None => a
    case Some(sequence) => Agent(sequence, a.delivered + reports)
  }

  function BeforeModel(a: Agent, rows: Rows, parse: Parser): Agent {
    var (reports, last) := UnreadReports(rows, a.seen, parse);
    Deliver(a, reports, last)
  }

  // ---- A history of writes, model calls and restores ----

  datatype Op =
    | Write(messages: seq<Message>, offset: int, source: string)
    | ModelCall
    | Restore(step: nat)

  /** `saved` holds the agent's state after each operation: what a restore can go back to. */
  datatype World = World(rows: Rows, agent: Agent, saved: seq<Agent>)

  const NewWorld := World([], NewAgent, [])

  function Step(w: World, op: Op, parse: Parser): World {
    var rows := if op.Write? then Written(w.rows, op.messages, op.offset, op.source, None) else w.rows;
    var agent :=
      match op
      case Write(_, _, _) => w.agent
      case ModelCall => BeforeModel(w.agent, w.rows, parse)
      case Restore(step) => if step < |w.saved| then w.saved[step] else w.agent;
    World(rows, agent, w.saved + [agent])
  }

  function History(ops: seq<Op>, parse: Parser): World {
    if ops == [] then NewWorld
    else Step(History(ops[..|ops| - 1], parse), ops[|ops| - 1], parse)
  }

  // ---- The reference: which reports an agent with a given mark must hold ----

  function ReportsUpTo(rows: Rows, seen: int, parse: Parser): seq<Report> {
    if rows == [] then []
    else
      var last := rows[|rows| - 1];
      var before := ReportsUpTo(rows[..|rows| - 1], seen, parse);
      if last.source == NOTIFICATION && last.sequence <= seen then WithReport(before, last, parse) else before
  }

  ghost predicate Exact(a: Agent, rows: Rows, parse: Parser) {
    a.seen <= MaxSequence(rows) && a.delivered == ReportsUpTo(rows, a.seen, parse)
  }

  lemma {:induction false} NewRowsAreUnseen(rows: Rows, added: Rows, seen: int, parse: Parser)
    requires forall row :: row in added ==> row.sequence > seen
    ensures ReportsUpTo(rows + added, seen, parse) == ReportsUpTo(rows, seen, parse)
    ensures MaxSequence(rows) <= MaxSequence(rows + added)
    decreases |added|
  {
    if added == [] {
      assert rows + added == rows;
    } else {
      NewRowsAreUnseen(rows, added[..|added| - 1], seen, parse);
      assert (rows + added)[..|rows + added| - 1] == rows + added[..|added| - 1];
    }
  }

  lemma {:induction false} NoNoticesAbove(rows: Rows, seen: int)
    requires MaxSequence(rows) <= seen
    ensures NoticesAfter(rows, seen) == []
    decreases |rows|
  {
    if rows != [] { NoNoticesAbove(rows[..|rows| - 1], seen); }
  }

  lemma LastRowIsGreatest(rows: Rows)
    requires Sound(rows) && rows != []
    ensures Sound(rows[..|rows| - 1]) && MaxSequence(rows[..|rows| - 1]) < rows[|rows| - 1].sequence
    ensures MaxSequence(rows) == rows[|rows| - 1].sequence
  {
    var init := rows[..|rows| - 1];
    assert forall k :: 0 <= k < |init| ==> init[k] == rows[k];
    MaxSequenceBounds(init);
  }

  /** A notice past the mark adds its report to what is read and to what the moved mark covers. */
  lemma UnreadNoticeExtends(init: Rows, r: Row, seen: int, last: int, parse: Parser)
    requires r.source == NOTIFICATION && seen < r.sequence <= last
    requires ReportsUpTo(init, last, parse) ==
             ReportsUpTo(init, seen, parse) + ReportsIn(NoticesAfter(init, seen), parse)
    ensures ReportsUpTo(init + [r], last, parse) ==
            ReportsUpTo(init + [r], seen, parse) + ReportsIn(NoticesAfter(init + [r], seen), parse)
  {
    var notices := NoticesAfter(init, seen);
    assert (init + [r])[..|init|] == init;
    assert (notices + [r])[..|notices|] == notices;
  }

  /** Moving the mark from `seen` to `last`, past every notice read, adds exactly the reports read. */
  lemma {:induction false} NoticesExtendWhatWasSeen(rows: Rows, seen: int, last: int, parse: Parser)
    requires Sound(rows) && seen <= last && NoticesAfter(rows, last) == []
    ensures ReportsUpTo(rows, last, parse) ==
            ReportsUpTo(rows, seen, parse) + ReportsIn(NoticesAfter(rows, seen), parse)
    decreases |rows|
  {
    if rows != [] {
      var init, r := rows[..|rows| - 1], rows[|rows| - 1];
      LastRowIsGreatest(rows);
      NoticesExtendWhatWasSeen(init, seen, last, parse);
      if r.source == NOTIFICATION && r.sequence > seen {
        UnreadNoticeExtends(init, r, seen, last, parse);
        assert init + [r] == rows;
      } else if r.source == NOTIFICATION {
        NoNoticesAbove(init, seen);
      }
    }
  }

  lemma {:induction false} NothingAfterLastNotice(rows: Rows, seen: int)
    requires Sound(rows) && NoticesAfter(rows, seen) != []
    ensures var last := NoticesAfter(rows, seen)[|NoticesAfter(rows, seen)| - 1].sequence;
            seen < last <= MaxSequence(rows) && NoticesAfter(rows, last) == []
    decreases |rows|
  {
    var init, r := rows[..|rows| - 1], rows[|rows| - 1];
    LastRowIsGreatest(rows);
    if r.source == NOTIFICATION && r.sequence > seen {
      NoNoticesAbove(rows, r.sequence);
    } else {
      NothingAfterLastNotice(init, seen);
      if r.source == NOTIFICATION { NoNoticesAbove(init, seen); }
    }
  }

  /** A model call gives the agent every report it lacks, in order, and leaves nothing unread. */
  lemma ModelCallIsExact(a: Agent, rows: Rows, parse: Parser)
    requires Sound(rows) && Exact(a, rows, parse)
    ensures var after := BeforeModel(a, rows, parse);
            && Exact(after, rows, parse)
            && after.delivered == a.delivered + UnreadReports(rows, a.seen, parse).0
            && after.delivered == ReportsUpTo(rows, MaxSequence(rows), parse)
            && !HasUnreadReports(rows, after.seen, parse)
  {
    NoNoticesAbove(rows, MaxSequence(rows));
    NoticesExtendWhatWasSeen(rows, a.seen, MaxSequence(rows), parse);
    var notices := NoticesAfter(rows, a.seen);
    if notices != [] {
      NothingAfterLastNotice(rows, a.seen);
      NoticesExtendWhatWasSeen(rows, a.seen, notices[|notices| - 1].sequence, parse);
    }
  }

  lemma WriteKeepsExact(before: Rows, ms: seq<Message>, offset: int, source: string, parse: Parser)
    requires Sound(before)
    ensures var rows := Written(before, ms, offset, source, None);
            Sound(rows) && forall a: Agent :: Exact(a, before, parse) ==> Exact(a, rows, parse)
  {
    var added := WriteAdds(before, ms, offset, source, None);
    forall a: Agent | Exact(a, before, parse) ensures Exact(a, before + added, parse) {
      NewRowsAreUnseen(before, added, a.seen, parse);
    }
  }

  /**
   * Main result: over any history of writes, model calls and restores, an agent holds exactly the reports up to
   * its mark, in order.
   */
  lemma {:induction false} DeliveryIsExact(ops: seq<Op>, parse: Parser)
    ensures var w := History(ops, parse);
            && Sound(w.rows)
            && Exact(w.agent, w.rows, parse)
            && (forall k :: 0 <= k < |w.saved| ==> Exact(w.saved[k], w.rows, parse))
    decreases |ops|
  {
    if ops != [] {
      var before := History(ops[..|ops| - 1], parse);
      var op := ops[|ops| - 1];
      DeliveryIsExact(ops[..|ops| - 1], parse);
      match op
      case Write(ms, offset, source) =>
        WriteKeepsExact(before.rows, ms, offset, source, parse);
      case ModelCall =>
        ModelCallIsExact(before.agent, before.rows, parse);
      case Restore(step) =>
    }
  }

  /** Said of the rows: an agent holds exactly the reports of the notices up to its mark, each with its row's text. */
  lemma {:induction false} ReportsUpToIff(rows: Rows, seen: int, parse: Parser, r: Report)
    ensures r in ReportsUpTo(rows, seen, parse) <==>
            exists row :: row in rows && row.source == "notification" && row.sequence == r.sequence <= seen
                          && parse(row.message.content) == Some(r.text)
    decreases |rows|
  {
    if rows != [] {
      var init, last := rows[..|rows| - 1], rows[|rows| - 1];
      ReportsUpToIff(init, seen, parse, r);
      assert forall row :: row in rows <==> row in init || row == last;
    }
  }

  /** Main result in those terms, over any history. */
  lemma DeliveredIff(ops: seq<Op>, parse: Parser, r: Report)
    ensures var w := History(ops, parse);
            r in w.agent.delivered <==>
            exists row :: row in w.rows && row.source == "notification" && row.sequence == r.sequence <= w.agent.seen
                          && parse(row.message.content) == Some(r.text)
  {
    DeliveryIsExact(ops, parse);
    var w := History(ops, parse);
    ReportsUpToIff(w.rows, w.agent.seen, parse, r);
  }

  lemma HistoryAfter(ops: seq<Op>, op: Op, parse: Parser)
    ensures History(ops + [op], parse) == Step(History(ops, parse), op, parse)
  {
    assert (ops + [op])[..|ops|] == ops;
  }

  /** After any history a batch is written and read by no one yet, as far as the agent goes. */
  lemma WriteGoesToRows(ops: seq<Op>, messages: seq<Message>, offset: int, source: string, parse: Parser)
    ensures var before, after := History(ops, parse), History(ops + [Op.Write(messages, offset, source)], parse);
            after.agent == before.agent && after.rows == Written(before.rows, messages, offset, source, None)
  {
    HistoryAfter(ops, Op.Write(messages, offset, source), parse);
  }

  /** After any history a model call gives the agent the report of every notice there is, and writes no row. */
  lemma ModelCallDeliversAll(ops: seq<Op>, parse: Parser, r: Report)
    ensures var before, after := History(ops, parse), History(ops + [ModelCall], parse);
            && after.rows == before.rows
            && (r in after.agent.delivered <==>
                  exists row :: row in before.rows && row.source == "notification" && row.sequence == r.sequence
                                && parse(row.message.content) == Some(r.text))
  {
    var before := History(ops, parse);
    HistoryAfter(ops, ModelCall, parse);
    DeliveryIsExact(ops, parse);
    ModelCallIsExact(before.agent, before.rows, parse);
    ReportsUpToIff(before.rows, MaxSequence(before.rows), parse, r);
    MaxSequenceBounds(before.rows);
  }

  /** A restore takes the agent back to where an earlier operation left it, and leaves the rows. */
  lemma RestoreGoesBack(ops: seq<Op>, step: nat, parse: Parser)
    requires step < |ops|
    ensures var before, after := History(ops, parse), History(ops + [Restore(step)], parse);
            after.rows == before.rows && after.agent == History(ops[..step + 1], parse).agent
  {
    HistoryAfter(ops, Restore(step), parse);
    EachAgentIsSaved(ops, parse);
    SavedAgents(ops, step, parse);
  }

  lemma {:induction false} EachAgentIsSaved(ops: seq<Op>, parse: Parser)
    ensures |History(ops, parse).saved| == |ops|
  {
    if ops != [] { EachAgentIsSaved(ops[..|ops| - 1], parse); }
  }

  lemma {:induction false} SavedAgents(ops: seq<Op>, step: nat, parse: Parser)
    requires step < |ops| && |History(ops, parse).saved| == |ops|
    ensures History(ops, parse).saved[step] == History(ops[..step + 1], parse).agent
    decreases |ops|
  {
    var init, op := ops[..|ops| - 1], ops[|ops| - 1];
    HistoryAfter(init, op, parse);
    EachAgentIsSaved(init, parse);
    assert init + [op] == ops;
    if step < |init| {
      SavedAgents(init, step, parse);
      assert init[..step + 1] == ops[..step + 1];
    } else {
      assert ops[..step + 1] == ops;
    }
  }

  /** What is unread: the reports of the notices above the mark. */
  lemma {:induction false} UnreadIff(rows: Rows, seen: int, parse: Parser)
    ensures HasUnreadReports(rows, seen, parse) <==>
            exists row :: row in rows && row.source == "notification" && row.sequence > seen
                          && parse(row.message.content).Some?
    decreases |rows|
  {
    if rows != [] {
      var init, last := rows[..|rows| - 1], rows[|rows| - 1];
      UnreadIff(init, seen, parse);
      assert forall row :: row in rows <==> row in init || row == last;
      var before := NoticesAfter(init, seen);
      assert (before + [last])[..|before|] == before;
    }
  }

  /** The reading as it is done: the notices above the mark, their reports, and the last notice read. */
  method ReadUnread(rows: Rows, seen: int, parse: Parser) returns (reports: seq<Report>, last: Option<int>)
    ensures (reports, last) == UnreadReports(rows, seen, parse)
  {
    reports, last := [], None;
    ghost var notices: Rows := [];
    for i := 0 to |rows|
      invariant notices == NoticesAfter(rows[..i], seen) && reports == ReportsIn(notices, parse)
      invariant last == if notices == [] then None else Some(notices[|notices| - 1].sequence)
    {
      assert rows[..i + 1][..i] == rows[..i];
      var row := rows[i];
      if row.source == "notification" && row.sequence > seen {
        assert (notices + [row])[..|notices|] == notices;
        notices := notices + [row];
        var text := parse(row.message.content);
        if text.Some? {
          reports := reports + [Report(row.sequence, text.value)];
        }
        last := Some(row.sequence);
      }
    }
    assert rows[..|rows|] == rows;
  }

  ghost predicate Rising(reports: seq<Report>, bound: int) {
    && (forall k :: 0 <= k < |reports| ==> reports[k].sequence <= bound)
    && (forall j, k :: 0 <= j < k < |reports| ==> reports[j].sequence < reports[k].sequence)
  }

  /** In particular no report is delivered twice: the delivered sequences rise. */
  lemma {:induction false} NoReportTwice(rows: Rows, seen: int, parse: Parser)
    requires Sound(rows)
    ensures Rising(ReportsUpTo(rows, seen, parse), MaxSequence(rows))
    ensures var reports := ReportsUpTo(rows, seen, parse);
            forall j, k :: 0 <= j < k < |reports| ==> reports[j].sequence < reports[k].sequence
    decreases |rows|
  {
    if rows != [] {
      LastRowIsGreatest(rows);
      NoReportTwice(rows[..|rows| - 1], seen, parse);
    }
  }
}
