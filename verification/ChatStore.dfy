/**
 * One session's rows of the chat history (core/persistence/message_writer.py):
 * writing batches, stamping checkpoints, and closing the calls of a stopped turn.
 */
module ChatStore {
  import opened Wrappers
  import opened Sequences

  // ---- Rows ----

  datatype Kind = Human | Ai | System | ToolResult | OtherKind(name: string)

  datatype Role = User | AssistantRole | SystemRole | ToolRole

  function RoleOf(kind: Kind): Role {
    match kind
    case Human => User
    case Ai => AssistantRole
    case System => SystemRole
    case ToolResult => ToolRole
    case OtherKind(_) => AssistantRole
  }

  datatype Call = Call(id: string, name: string)

  /** The parts of additional_kwargs the store itself writes: grouping keys and the stopped mark. */
  datatype Kwargs = Kwargs(namespace: Option<seq<string>>, parentCall: Option<string>, stopped: bool)

  const NoKwargs := Kwargs(None, None, false)

  /** `callId` is the tool_call_id of a result, "" when there is none. */
  datatype Message = Message(
    id: Option<string>, kind: Kind, name: string, content: string,
    calls: seq<Call>, callId: string, kwargs: Kwargs)

  datatype Row = Row(sequence: int, role: Role, source: string, message: Message, checkpoint: Option<string>)

  type Rows = seq<Row>

  const DEEPAGENTS := "deepagents"
  const NOTIFICATION := "notification"
  const SUBAGENT := "subagent"

  /** COALESCE(MAX(sequence), -1) */
  function MaxSequence(rows: Rows): int {
    if rows == [] then -1
    else
      var rest := MaxSequence(rows[..|rows| - 1]);
      if rows[|rows| - 1].sequence > rest then rows[|rows| - 1].sequence else rest
  }

  predicate HasId(rows: Rows, id: Option<string>) {
    id.Some? && exists k :: 0 <= k < |rows| && rows[k].message.id == id
  }

  // ---- Writing a batch ----

  function InsertOne(rows: Rows, m: Message, sequence: int, source: string, checkpoint: Option<string>): Rows {
    if HasId(rows, m.id) then rows
    else rows + [Row(sequence, RoleOf(m.kind), source, m, checkpoint)]
  }

  function InsertAll(rows: Rows, ms: seq<Message>, base: int, source: string, checkpoint: Option<string>): Rows {
    if ms == [] then rows
    else
      var n := |ms| - 1;
      InsertOne(InsertAll(rows, ms[..n], base, source, checkpoint), ms[n], base + n, source, checkpoint)
  }

  function Base(rows: Rows, offset: int): int {
    if offset > MaxSequence(rows) + 1 then offset else MaxSequence(rows) + 1
  }

  function Written(rows: Rows, ms: seq<Message>, offset: int, source: string, checkpoint: Option<string>): Rows {
    InsertAll(rows, ms, Base(rows, offset), source, checkpoint)
  }

  function MessagesOf(rows: Rows): seq<Message> {
    if rows == [] then [] else MessagesOf(rows[..|rows| - 1]) + [rows[|rows| - 1].message]
  }

  // ---- What the store keeps ----

  /** Sequences rise in insertion order and no id that is not null occurs twice. */
  ghost predicate Sound(rows: Rows) {
    && (forall k :: 0 <= k < |rows| ==> rows[k].sequence >= 0)
    && (forall j, k :: 0 <= j < k < |rows| ==> rows[j].sequence < rows[k].sequence)
    && (forall j, k :: 0 <= j < k < |rows| && rows[j].message.id.Some? ==> rows[j].message.id != rows[k].message.id)
  }

  lemma IdsAreUnique(rows: Rows, a: Row, b: Row)
    requires Sound(rows) && a in rows && b in rows
    requires a.message.id.Some? && a.message.id == b.message.id
    ensures a == b
  {
    var j :| 0 <= j < |rows| && rows[j] == a;
    var k :| 0 <= k < |rows| && rows[k] == b;
  }

  /**
   * Message `k` of a batch is new: it has no id, or an id neither the store nor an earlier message of the batch
   * has.
   */
  ghost predicate IsNew(rows: Rows, ms: seq<Message>, k: nat)
    requires k < |ms|
  {
    ms[k].id.None? || (!HasId(rows, ms[k].id) && forall j :: 0 <= j < k ==> ms[j].id != ms[k].id)
  }

  /** The rows a batch should add: its new messages in order, each numbered by its place in the batch. */
  ghost function NewRows(rows: Rows, ms: seq<Message>, n: nat, base: int, source: string,
      checkpoint: Option<string>): Rows
    requires n <= |ms|
  {
    if n == 0 then []
    else
      NewRows(rows, ms, n - 1, base, source, checkpoint)
      + if IsNew(rows, ms, n - 1) then [Row(base + n - 1, RoleOf(ms[n - 1].kind), source, ms[n - 1], checkpoint)]
        else []
  }

  /** After the first `n` messages, the ids in the table are those it had and those of the messages. */
  lemma {:induction false} IdsAfterInserting(rows: Rows, ms: seq<Message>, base: int, source: string,
      checkpoint: Option<string>, id: Option<string>)
    requires id.Some?
    ensures HasId(InsertAll(rows, ms, base, source, checkpoint), id) <==>
            HasId(rows, id) || exists j :: 0 <= j < |ms| && ms[j].id == id
    decreases |ms|
  {
    if ms != [] {
      var n := |ms| - 1;
      IdsAfterInserting(rows, ms[..n], base, source, checkpoint, id);
      var before := InsertAll(rows, ms[..n], base, source, checkpoint);
      var after := InsertAll(rows, ms, base, source, checkpoint);
      if HasId(before, id) {
        var k :| 0 <= k < |before| && before[k].message.id == id;
        assert after[k] == before[k];
      }
      if ms[n].id == id && !HasId(before, id) {
        assert after[|before|].message.id == id;
      }
    }
  }

  /** A batch adds exactly its new messages, whatever the caller's offset. */
  lemma {:induction false} InsertAllAddsNewRows(rows: Rows, ms: seq<Message>, n: nat, base: int, source: string,
      checkpoint: Option<string>)
    requires n <= |ms|
    ensures InsertAll(rows, ms[..n], base, source, checkpoint) == rows + NewRows(rows, ms, n, base, source, checkpoint)
  {
    if n > 0 {
      InsertAllAddsNewRows(rows, ms, n - 1, base, source, checkpoint);
      assert ms[..n][..n - 1] == ms[..n - 1];
      if ms[n - 1].id.Some? {
        IdsAfterInserting(rows, ms[..n - 1], base, source, checkpoint, ms[n - 1].id);
        assert forall j :: 0 <= j < n - 1 ==> ms[..n - 1][j] == ms[j];
      }
    } else {
      assert rows + [] == rows;
    }
  }

  lemma {:induction false} MaxSequenceBounds(rows: Rows)
    ensures forall k :: 0 <= k < |rows| ==> rows[k].sequence <= MaxSequence(rows)
    ensures MaxSequence(rows) == -1 || exists k :: 0 <= k < |rows| && rows[k].sequence == MaxSequence(rows)
    ensures MaxSequence(rows) >= -1
    decreases |rows|
  {
    if rows != [] {
      MaxSequenceBounds(rows[..|rows| - 1]);
      assert forall k :: 0 <= k < |rows| - 1 ==> rows[..|rows| - 1][k] == rows[k];
    }
  }

  ghost predicate AddedBy(rows: Rows, ms: seq<Message>, base: int, source: string, checkpoint: Option<string>,
      after: Rows) {
    && |rows| <= |after|
    && after[..|rows|] == rows
    && forall k :: |rows| <= k < |after| ==>
         && base <= after[k].sequence < base + |ms|
         && after[k].message in ms
         && after[k] == Row(after[k].sequence, RoleOf(after[k].message.kind), source, after[k].message, checkpoint)
  }

  lemma InsertOneIsSound(rows: Rows, m: Message, sequence: int, source: string, checkpoint: Option<string>)
    requires Sound(rows) && sequence >= 0 && forall k :: 0 <= k < |rows| ==> rows[k].sequence < sequence
    ensures Sound(InsertOne(rows, m, sequence, source, checkpoint))
  {
    if !HasId(rows, m.id) && m.id.Some? {
      assert forall k :: 0 <= k < |rows| ==> rows[k].message.id != m.id;
    }
  }

  lemma InsertOneAdds(rows: Rows, ms: seq<Message>, base: int, source: string, checkpoint: Option<string>, before: Rows)
    requires ms != [] && AddedBy(rows, ms[..|ms| - 1], base, source, checkpoint, before)
    ensures AddedBy(rows, ms, base, source, checkpoint,
                    InsertOne(before, ms[|ms| - 1], base + |ms| - 1, source, checkpoint))
  {
    assert forall m :: m in ms[..|ms| - 1] ==> m in ms;
  }

  lemma {:induction false} InsertAllIsSound(rows: Rows, ms: seq<Message>, base: int, source: string,
      checkpoint: Option<string>)
    requires Sound(rows) && base >= 0 && forall k :: 0 <= k < |rows| ==> rows[k].sequence < base
    ensures Sound(InsertAll(rows, ms, base, source, checkpoint))
    ensures AddedBy(rows, ms, base, source, checkpoint, InsertAll(rows, ms, base, source, checkpoint))
    decreases |ms|
  {
    if ms != [] {
      var n := |ms| - 1;
      InsertAllIsSound(rows, ms[..n], base, source, checkpoint);
      var before := InsertAll(rows, ms[..n], base, source, checkpoint);
      forall k | 0 <= k < |before| ensures before[k].sequence < base + n {
        if k < |rows| { assert before[..|rows|][k] == before[k]; }
      }
      InsertOneIsSound(before, ms[n], base + n, source, checkpoint);
      InsertOneAdds(rows, ms, base, source, checkpoint, before);
    }
  }

  /**
   * Main result on writing: the table stays sound, keeps every row, and gains exactly the batch's new messages,
   * above every old sequence.
   */
  lemma WriteIsSound(rows: Rows, ms: seq<Message>, offset: int, source: string, checkpoint: Option<string>)
    requires Sound(rows)
    ensures var after := Written(rows, ms, offset, source, checkpoint);
            && Sound(after)
            && AddedBy(rows, ms, Base(rows, offset), source, checkpoint, after)
            && Base(rows, offset) > MaxSequence(rows)
            && after == rows + NewRows(rows, ms, |ms|, Base(rows, offset), source, checkpoint)
  {
    MaxSequenceBounds(rows);
    InsertAllIsSound(rows, ms, Base(rows, offset), source, checkpoint);
    InsertAllAddsNewRows(rows, ms, |ms|, Base(rows, offset), source, checkpoint);
    assert ms[..|ms|] == ms;
  }

  /** The roles rows are stored under: a message of any other type counts as the assistant's. */
  lemma RolesAreStored(rows: Rows, m: Message, source: string, checkpoint: Option<string>) returns (role: Role)
    requires m.id.None?
    ensures Written(rows, [m], 0, source, checkpoint) ==
            rows + [Row(MaxSequence(rows) + 1, role, source, m, checkpoint)]
    ensures role == User <==> m.kind == Human
    ensures role == SystemRole <==> m.kind == System
    ensures role == ToolRole <==> m.kind == ToolResult
    ensures role == AssistantRole <==> m.kind == Ai || m.kind.OtherKind?
  {
    role := RoleOf(m.kind);
    MaxSequenceBounds(rows);
    WritingOneAnonymous(rows, m, source, checkpoint);
  }

  /** The rows a batch added, as the callers of the store need them. */
  lemma WriteAdds(rows: Rows, ms: seq<Message>, offset: int, source: string, checkpoint: Option<string>)
    returns (added: Rows)
    requires Sound(rows)
    ensures Written(rows, ms, offset, source, checkpoint) == rows + added && Sound(rows + added)
    ensures forall row :: row in added ==>
              && row.sequence > MaxSequence(rows) && row.message in ms
              && row == Row(row.sequence, RoleOf(row.message.kind), source, row.message, checkpoint)
  {
    WriteIsSound(rows, ms, offset, source, checkpoint);
    var after := Written(rows, ms, offset, source, checkpoint);
    added := after[|rows|..];
    assert after == rows + added;
    forall row | row in added
      ensures row.sequence > MaxSequence(rows) && row.message in ms
      ensures row == Row(row.sequence, RoleOf(row.message.kind), source, row.message, checkpoint)
    {
      var k :| 0 <= k < |added| && added[k] == row;
      assert after[|rows| + k] == row;
    }
  }

  lemma {:induction false} KnownMessagesAreSkipped(rows: Rows, ms: seq<Message>, base: int, source: string,
      checkpoint: Option<string>)
    requires forall m :: m in ms ==> HasId(rows, m.id)
    ensures InsertAll(rows, ms, base, source, checkpoint) == rows
    decreases |ms|
  {
    if ms != [] { KnownMessagesAreSkipped(rows, ms[..|ms| - 1], base, source, checkpoint); }
  }

  /** Replaying a batch of messages that all have ids, at any offset, inserts nothing. */
  lemma ReplayInsertsNothing(rows: Rows, ms: seq<Message>, o1: int, o2: int, source: string, checkpoint: Option<string>)
    requires forall m :: m in ms ==> m.id.Some?
    ensures var once := Written(rows, ms, o1, source, checkpoint);
            Written(once, ms, o2, source, checkpoint) == once
  {
    var once := Written(rows, ms, o1, source, checkpoint);
    forall m | m in ms ensures HasId(once, m.id) {
      IdsAfterInserting(rows, ms, Base(rows, o1), source, checkpoint, m.id);
    }
    KnownMessagesAreSkipped(once, ms, Base(once, o2), source, checkpoint);
  }

  // ---- Stamping ----

  function StampRow(row: Row, checkpoint: string): Row {
    if row.checkpoint.None? then row.(checkpoint := Some(checkpoint)) else row
  }

  function Stamped(rows: Rows, checkpoint: string): Rows {
    if checkpoint == "" then rows
    else seq(|rows|, k requires 0 <= k < |rows| => StampRow(rows[k], checkpoint))
  }

  datatype Op =
    | Write(messages: seq<Message>, offset: int, source: string, checkpoint: Option<string>)
    | Stamp(id: string)

  function Apply(rows: Rows, op: Op): Rows {
    match op
    case Write(ms, offset, source, checkpoint) => Written(rows, ms, offset, source, checkpoint)
    case Stamp(id) => Stamped(rows, id)
  }

  function Run(ops: seq<Op>): Rows {
    if ops == [] then [] else Apply(Run(ops[..|ops| - 1]), ops[|ops| - 1])
  }

  lemma {:induction false} EveryRunIsSound(ops: seq<Op>)
    ensures Sound(Run(ops))
    decreases |ops|
  {
    if ops != [] {
      EveryRunIsSound(ops[..|ops| - 1]);
      var op := ops[|ops| - 1];
      if op.Write? {
        WriteIsSound(Run(ops[..|ops| - 1]), op.messages, op.offset, op.source, op.checkpoint);
      }
    }
  }

  /** The stamps made so far, each with the number of rows there were. */
  function Cuts(ops: seq<Op>): seq<(nat, string)> {
    if ops == [] then []
    else
      var init := ops[..|ops| - 1];
      var op := ops[|ops| - 1];
      if op.Stamp? && op.id != "" then Cuts(init) + [(|Run(init)|, op.id)] else Cuts(init)
  }

  /** The first stamp made once row `k` existed. */
  function CutOf(cuts: seq<(nat, string)>, k: nat): (j: nat)
    ensures j <= |cuts|
    ensures forall i :: 0 <= i < j ==> cuts[i].0 <= k
    ensures j < |cuts| ==> k < cuts[j].0
    decreases |cuts|
  {
    if cuts == [] then 0
    else
      var j := CutOf(cuts[..|cuts| - 1], k);
      assert forall i :: 0 <= i < |cuts| - 1 ==> cuts[..|cuts| - 1][i] == cuts[i];
      if j < |cuts| - 1 || k < cuts[|cuts| - 1].0 then j else |cuts|
  }

  /** Each row carries the first stamp made after it was written, or none. */
  lemma {:induction false} RowsCarryTheirFirstStamp(ops: seq<Op>)
    requires forall op :: op in ops && op.Write? ==> op.checkpoint.None?
    ensures forall j :: 0 <= j < |Cuts(ops)| ==> Cuts(ops)[j].0 <= |Run(ops)|
    ensures forall k :: 0 <= k < |Run(ops)| ==>
              Run(ops)[k].checkpoint ==
              (if CutOf(Cuts(ops), k) < |Cuts(ops)| then Some(Cuts(ops)[CutOf(Cuts(ops), k)].1) else None)
    decreases |ops|
  {
    if ops != [] {
      var init := ops[..|ops| - 1];
      var op := ops[|ops| - 1];
      RowsCarryTheirFirstStamp(init);
      EveryRunIsSound(init);
      match op
      case Write(ms, offset, source, checkpoint) =>
        WriteIsSound(Run(init), ms, offset, source, checkpoint);
      case Stamp(id) =>
        assert Cuts(ops)[..|Cuts(init)|] == Cuts(init);
    }
  }

  /** Read by sequence, stamps appear in the order they were made and unstamped rows come last. */
  lemma StampsAreInOrder(ops: seq<Op>, k: nat, l: nat)
    requires forall op :: op in ops && op.Write? ==> op.checkpoint.None?
    requires k <= l < |Run(ops)|
    ensures k < l ==> Run(ops)[k].sequence < Run(ops)[l].sequence
    ensures CutOf(Cuts(ops), k) <= CutOf(Cuts(ops), l)
    ensures Run(ops)[k].checkpoint.None? ==> Run(ops)[l].checkpoint.None?
  {
    EveryRunIsSound(ops);
    RowsCarryTheirFirstStamp(ops);
  }

  lemma WritingOneAnonymous(rows: Rows, m: Message, source: string, checkpoint: Option<string>)
    requires m.id.None?
    ensures Written(rows, [m], 0, source, checkpoint) ==
            rows + [Row(Base(rows, 0), RoleOf(m.kind), source, m, checkpoint)]
  {
    assert [m][..0] == [];
    assert InsertAll(rows, [], Base(rows, 0), source, checkpoint) == rows;
  }

  /** Read by sequence, no stamped row comes after an unstamped one. */
  ghost predicate UnstampedComeLast(rows: Rows) {
    forall k, l :: 0 <= k < l < |rows| && rows[k].checkpoint.None? ==> rows[l].checkpoint.None?
  }

  ghost predicate AllStamped(rows: Rows) {
    forall k :: 0 <= k < |rows| ==> rows[k].checkpoint.Some?
  }

  /**
   * A batch keeps unstamped rows last exactly when it carries no checkpoint, or adds no row, or finds every row
   * stamped.
   */
  lemma WriteKeepsUnstampedLastIff(rows: Rows, ms: seq<Message>, offset: int, source: string,
      checkpoint: Option<string>)
    requires Sound(rows) && UnstampedComeLast(rows)
    ensures var after := Written(rows, ms, offset, source, checkpoint);
            UnstampedComeLast(after) <==> checkpoint.None? || after == rows || AllStamped(rows)
  {
    var added := WriteAdds(rows, ms, offset, source, checkpoint);
    var after := rows + added;
    assert forall k :: 0 <= k < |added| ==> added[k] in added;
    if added == [] {
      assert after == rows;
    } else if checkpoint.Some? && !AllStamped(rows) {
      var k :| 0 <= k < |rows| && rows[k].checkpoint.None?;
      assert after[k] == rows[k] && after[|rows|] == added[0];
    }
  }

  /** So over any history whose callers pass none. */
  lemma UnstampedStayLast(ops: seq<Op>)
    requires forall op :: op in ops && op.Write? ==> op.checkpoint.None?
    ensures UnstampedComeLast(Run(ops))
  {
    forall k, l | 0 <= k < l < |Run(ops)| && Run(ops)[k].checkpoint.None? ensures Run(ops)[l].checkpoint.None? {
      StampsAreInOrder(ops, k, l);
    }
  }

  /** The order needs callers that leave the checkpoint out: one that passes it stamps past an unstamped row. */
  lemma AnExplicitCheckpointOvertakes(a: Message, b: Message)
    requires a.id.None? && b.id.None?
    ensures var rows := Run([Write([a], 0, SUBAGENT, None), Write([b], 0, SUBAGENT, Some("c"))]);
            |rows| == 2 && rows[0].checkpoint.None? && rows[1].checkpoint == Some("c")
  {
    var first := Write([a], 0, SUBAGENT, None);
    var second := Write([b], 0, SUBAGENT, Some("c"));
    assert [first, second][..1] == [first];
    assert Run([first]) == Apply(Run([]), first);
    WritingOneAnonymous([], a, SUBAGENT, None);
    WritingOneAnonymous(Run([first]), b, SUBAGENT, Some("c"));
  }
}
