/** Trajectory records and the turns they fall into (src/lib/trajectory.ts). */
module Records {
  import opened Options
  import opened Timeline

  datatype Kind = SystemRecord | UserRecord | ContextRecord | CompactedRecord | MessageRecord | ToolRecord | SubtoolRecord

  datatype ToolInfo = ToolInfo(
    name: string,
    call: string,
    args: Option<string>,
    result: Option<string>,
    callId: Option<string>,
    startedAt: Option<int>,
    finishedAt: Option<int>)

  datatype Record = Record(
    index: nat,
    kind: Kind,
    messageId: string,
    partIndex: nat,
    time: int,
    summary: string,
    text: Option<string>,
    reasoning: Option<string>,
    images: Option<seq<Image>>,
    model: Option<Model>,
    stats: Option<string>,
    source: Option<string>,
    contextItems: Option<seq<string>>,
    tool: Option<ToolInfo>)

  /** A segment opened by a user record; the records before the first one form a prologue. */
  datatype Turn = Turn(startIndex: nat, records: seq<Record>, steps: nat, toolCalls: nat, headed: bool)

  predicate IsToolKind(kind: Kind) {
    kind.ToolRecord? || kind.SubtoolRecord?
  }

  function Extend(turn: Turn, record: Record): Turn {
    turn.(records := turn.records + [record], steps := turn.steps + 1,
          toolCalls := turn.toolCalls + if IsToolKind(record.kind) then 1 else 0)
  }

  function GroupTurns(records: seq<Record>): seq<Turn> {
    if records == [] then [] else
    var turns, last := GroupTurns(records[..|records| - 1]), records[|records| - 1];
    if last.kind.UserRecord? || turns == [] then turns + [Extend(Turn(last.index, [], 0, 0, last.kind.UserRecord?), last)]
    else turns[|turns| - 1 := Extend(turns[|turns| - 1], last)]
  }

  method GroupTrajectoryTurns(records: seq<Record>) returns (turns: seq<Turn>)
    ensures turns == GroupTurns(records)
  {
    turns := [];
    for n := 0 to |records|
      invariant turns == GroupTurns(records[..n])
    {
      var record := records[n];
      assert records[..n + 1][..n] == records[..n];
      if record.kind.UserRecord? || turns == [] {
        turns := turns + [Turn(record.index, [], 0, 0, record.kind.UserRecord?)];
      }
      turns := turns[|turns| - 1 := Extend(turns[|turns| - 1], record)];
    }
    assert records[..|records|] == records;
  }

  /** `slice(max(0, length - limit))`. */
  function TailStart(n: nat, limit: int): nat {
    if limit >= n then 0 else if limit < 0 then n else n - limit
  }

  function TailWindow<T>(records: seq<T>, limit: int): seq<T> {
    records[TailStart(|records|, limit)..]
  }

  function From(records: seq<Record>, first: nat): seq<Record> {
    if records == [] then [] else (if records[0].index >= first then [records[0]] else []) + From(records[1..], first)
  }

  function Trim(turns: seq<Turn>, first: nat): seq<Turn> {
    if turns == [] then [] else
    var kept := From(turns[0].records, first);
    (if kept == [] then [] else [turns[0].(records := kept)]) + Trim(turns[1..], first)
  }

  /** The turns of the newest `limit` records, regrouped so that no record is shown outside its own turn. */
  function VisibleTurns(records: seq<Record>, limit: int): seq<Turn> {
    var window := TailWindow(records, limit);
    if window == [] then [] else Trim(GroupTurns(records), window[0].index)
  }

  // ----- What grouping does --------------------------------------------------------------------

  ghost predicate Increasing(records: seq<Record>) {
    forall i, j :: 0 <= i < j < |records| ==> records[i].index < records[j].index
  }

  function Flat(turns: seq<Turn>): seq<Record> {
    if turns == [] then [] else Flat(turns[..|turns| - 1]) + turns[|turns| - 1].records
  }

  function ToolCount(records: seq<Record>): nat {
    if records == [] then 0 else
    var kind := records[|records| - 1].kind;
    ToolCount(records[..|records| - 1]) + if kind == ToolRecord || kind == SubtoolRecord then 1 else 0
  }

  /** A turn starts with its only user record, or is the prologue, and its counters are right. */
  ghost predicate TurnOk(turn: Turn, isFirst: bool) {
    turn.records != [] && turn.startIndex == turn.records[0].index && turn.steps == |turn.records| &&
    turn.toolCalls == ToolCount(turn.records) && (turn.headed <==> turn.records[0].kind.UserRecord?) && (turn.headed || isFirst) &&
    forall k :: 0 < k < |turn.records| ==> !turn.records[k].kind.UserRecord?
  }

  lemma FreshTurnOk(record: Record, isFirst: bool)
    requires record.kind.UserRecord? || isFirst
    ensures TurnOk(Extend(Turn(record.index, [], 0, 0, record.kind.UserRecord?), record), isFirst)
  {
    var turn := Extend(Turn(record.index, [], 0, 0, record.kind.UserRecord?), record);
    assert turn.records == [record] && turn.records[..0] == [];
    assert ToolCount(turn.records) == turn.toolCalls by { assert ToolCount([]) == 0; }
    hide ToolCount, Extend;
  }

  lemma ExtendOk(turn: Turn, record: Record, isFirst: bool)
    requires TurnOk(turn, isFirst) && !record.kind.UserRecord?
    ensures TurnOk(Extend(turn, record), isFirst)
  {
    assert (turn.records + [record])[..|turn.records|] == turn.records;
  }

  lemma FlatNext(turns: seq<Turn>, turn: Turn)
    ensures Flat(turns + [turn]) == Flat(turns) + turn.records
  {
    assert (turns + [turn])[..|turns|] == turns;
  }

  /** The last step of grouping opens a turn or extends the last one. */
  lemma LastStep(records: seq<Record>)
    requires records != []
    ensures var before, last := GroupTurns(records[..|records| - 1]), records[|records| - 1];
            GroupTurns(records) ==
              if last.kind.UserRecord? || before == [] then before + [Extend(Turn(last.index, [], 0, 0, last.kind.UserRecord?), last)]
              else before[..|before| - 1] + [Extend(before[|before| - 1], last)]
  {
  }

  lemma {:induction false} GroupingKeepsRecords(records: seq<Record>)
    ensures Flat(GroupTurns(records)) == records
  {
    if records == [] { return; }
    var front, last := records[..|records| - 1], records[|records| - 1];
    GroupingKeepsRecords(front);
    LastStep(records);
    var before := GroupTurns(front);
    assert records == front + [last];
    hide GroupTurns, Flat;
    if last.kind.UserRecord? || before == [] { FlatNext(before, Extend(Turn(last.index, [], 0, 0, last.kind.UserRecord?), last)); }
    else {
      var rest, turn := before[..|before| - 1], before[|before| - 1];
      assert before == rest + [turn];
      FlatNext(rest, turn);
      FlatNext(rest, Extend(turn, last));
    }
  }

  /** Grouping cuts the record list before each user record and changes nothing else. */
  lemma {:induction false} GroupingPartitions(records: seq<Record>)
    ensures Flat(GroupTurns(records)) == records
    ensures forall i :: 0 <= i < |GroupTurns(records)| ==> TurnOk(GroupTurns(records)[i], i == 0)
  {
    GroupingKeepsRecords(records);
    TurnsOk(records);
  }

  lemma {:induction false} TurnsOk(records: seq<Record>)
    ensures forall i :: 0 <= i < |GroupTurns(records)| ==> TurnOk(GroupTurns(records)[i], i == 0)
  {
    if records != [] {
      var front, last := records[..|records| - 1], records[|records| - 1];
      TurnsOk(front);
      LastStep(records);
      hide *;
      var before := GroupTurns(front);
      if last.kind.UserRecord? || before == [] { FreshTurnOk(last, before == []); }
      else { ExtendOk(before[|before| - 1], last, |before| == 1); }
    }
  }
}
