/**
 The event journal of the agent: an append-only file whose replay rebuilds the commands
 already seen, the events still to deliver and the free calls whose outcome is unknown.
 */
module EventJournal {
  import opened Prelude

  datatype AgentEvent = AgentEvent(schemaVersion: string, commandId: string, callId: string, eventId: string,
                                   state: string, occurredAt: int, reasonCode: Option<string>)

  datatype Kind = Command | Event | Ack | FreeCallIntent | FreeCallResolved

  datatype Record = Record(kind: Kind, commandId: string, eventId: Option<string>, callId: Option<string>,
                           state: Option<string>, at: int, acknowledged: Option<bool>, reasonCode: Option<string>)

  // ---------------------------------------------------------------- the file

  datatype Line = Readable(record: Record) | Garbage

  /**
   What follows the last line terminator.  A crash inside an append leaves part of a
   record, or a whole record without its terminator.
   */
  datatype Tail = Closed | Torn | Unterminated(record: Record)

  datatype Log = Log(lines: seq<Line>, tail: Tail)

  /** Text appended behind an open tail joins that line, which is then no JSON document. */
  function Append(log: Log, r: Record): Log {
    if log.tail.Closed? then Log(log.lines + [Readable(r)], Closed) else Log(log.lines + [Garbage], Closed)
  }

  /** What a reload reads: the terminated lines, then the tail. */
  function LinesRead(log: Log): seq<Line> {
    match log.tail
    case Closed => log.lines
    case Torn => log.lines + [Garbage]
    case Unterminated(r) => log.lines + [Readable(r)]
  }

  // ---------------------------------------------------------------- replay

  datatype Memory = Memory(seen: set<string>, pending: map<string, AgentEvent>, unresolved: set<string>)

  function Empty(): Memory { Memory({}, map[], {}) }

  function Apply(m: Memory, line: Line): Memory {
    match line
    case Garbage => m
    case Readable(r) =>
      match r.kind
      case Command => m.(seen := m.seen + {r.commandId})
      case FreeCallIntent => m.(unresolved := m.unresolved + {r.commandId})
      case FreeCallResolved => m.(unresolved := m.unresolved - {r.commandId})
      case Event =>
        if r.eventId.Some? && r.callId.Some? && r.state.Some?
        then m.(pending := m.pending[r.eventId.value :=
            AgentEvent("1", r.commandId, r.callId.value, r.eventId.value, r.state.value, r.at, r.reasonCode)])
        else m
      case Ack => if r.eventId.Some? then m.(pending := m.pending - {r.eventId.value}) else m
  }

  function ApplyAll(m: Memory, lines: seq<Line>): Memory
    decreases |lines|
  {
    if lines == [] then m else ApplyAll(Apply(m, lines[0]), lines[1..])
  }

  function Replay(log: Log): Memory { ApplyAll(Empty(), LinesRead(log)) }

  lemma {:induction false} ApplyAllSplit(m: Memory, first: seq<Line>, second: seq<Line>)
    ensures ApplyAll(m, first + second) == ApplyAll(ApplyAll(m, first), second)
    decreases |first|
  {
    if first == [] {
      assert first + second == second;
    } else {
      assert (first + second)[1..] == first[1..] + second;
      ApplyAllSplit(Apply(m, first[0]), first[1..], second);
    }
  }

  lemma ApplyOne(m: Memory, lines: seq<Line>, line: Line)
    ensures ApplyAll(m, lines + [line]) == Apply(ApplyAll(m, lines), line)
  {
    ApplyAllSplit(m, lines, [line]);
    var rest := ApplyAll(m, lines);
    assert [line][1..] == [];
    assert ApplyAll(rest, [line]) == ApplyAll(Apply(rest, line), []);
  }

  /** Appending behind a terminated line replays the record. */
  lemma AppendReplays(log: Log, r: Record)
    requires log.tail.Closed?
    ensures Replay(Append(log, r)) == Apply(Replay(log), Readable(r))
  {
    ApplyOne(Empty(), log.lines, Readable(r));
  }

  // ---------------------------------------------------------------- journal operations

  /** A file and what the process remembers of it. */
  datatype Journal = Journal(log: Log, memory: Memory)

  function IntentRecord(key: string, at: int): Record {
    Record(FreeCallIntent, key, None, None, None, at, Some(false), None)
  }
  function ResolvedRecord(key: string, at: int): Record {
    Record(FreeCallResolved, key, None, None, None, at, Some(true), None)
  }
  function CommandRecord(id: string, at: int): Record { Record(Command, id, None, None, None, at, None, None) }
  function EventRecord(e: AgentEvent): Record {
    Record(Event, e.commandId, Some(e.eventId), Some(e.callId), Some(e.state), e.occurredAt, Some(false), e.reasonCode)
  }
  function AckRecord(e: AgentEvent, at: int): Record {
    Record(Ack, e.commandId, Some(e.eventId), Some(e.callId), Some(e.state), at, Some(true), e.reasonCode)
  }

  datatype Operation =
    | BeginFreeCall(key: string, at: int)
    | ResolveFreeCall(key: string, at: int)
    | MarkCommand(id: string, at: int)
    | Add(item: AgentEvent)
    | Acknowledge(item: AgentEvent, at: int)

  /** The record an operation appends, if any. */
  function Written(m: Memory, op: Operation): Option<Record> {
    match op
    case BeginFreeCall(key, at) => Some(IntentRecord(key, at))
    case ResolveFreeCall(key, at) => Some(ResolvedRecord(key, at))
    case MarkCommand(id, at) => if id in m.seen then None else Some(CommandRecord(id, at))
    case Add(item) => Some(EventRecord(item))
    case Acknowledge(item, at) => if item.eventId in m.pending then Some(AckRecord(item, at)) else None
  }

  /** What the process remembers afterwards. */
  function Remembered(m: Memory, op: Operation): Memory {
    match op
    case BeginFreeCall(key, _) => m.(unresolved := m.unresolved + {key})
    case ResolveFreeCall(key, _) => m.(unresolved := m.unresolved - {key})
    case MarkCommand(id, _) => m.(seen := m.seen + {id})
    case Add(item) => m.(pending := m.pending[item.eventId := item])
    case Acknowledge(item, _) => m.(pending := m.pending - {item.eventId})
  }

  function Perform(j: Journal, op: Operation): Journal {
    var r := Written(j.memory, op);
    Journal(if r.Some? then Append(j.log, r.value) else j.log, Remembered(j.memory, op))
  }

  function PerformAll(j: Journal, ops: seq<Operation>): Journal
    decreases |ops|
  {
    if ops == [] then j else PerformAll(Perform(j, ops[0]), ops[1..])
  }

  /** What the process remembers is what a reload of the file would give. */
  predicate Consistent(j: Journal) { j.log.tail.Closed? && Replay(j.log) == j.memory }

  /** The record says what the operation remembers exactly when an added event carries schema "1". */
  lemma RecordSaysWhatIsRemembered(m: Memory, op: Operation)
    requires Written(m, op).Some?
    ensures Apply(m, Readable(Written(m, op).value)) == Remembered(m, op) <==>
        (op.Add? ==> op.item.schemaVersion == "1")
  {
    if op.Add? {
      var x := Apply(m, Readable(EventRecord(op.item))).pending[op.item.eventId];
      assert x == op.item <==> op.item.schemaVersion == "1";
      assert Remembered(m, op).pending[op.item.eventId] == op.item;
    }
  }

  lemma PerformKeepsConsistentIff(j: Journal, op: Operation)
    requires Consistent(j)
    ensures Consistent(Perform(j, op)) <==> (op.Add? ==> op.item.schemaVersion == "1")
  {
    var r := Written(j.memory, op);
    if r.Some? {
      RecordSaysWhatIsRemembered(j.memory, op);
      AppendReplays(j.log, r.value);
    } else {
      assert Remembered(j.memory, op) == j.memory;
    }
  }

  /** Replaying the file gives exactly the sets in memory, after any operations on schema "1" events. */
  lemma {:induction false} ReplayEqualsMemory(j: Journal, ops: seq<Operation>)
    requires Consistent(j)
    requires forall op :: op in ops && op.Add? ==> op.item.schemaVersion == "1"
    ensures Consistent(PerformAll(j, ops))
    decreases |ops|
  {
    if ops != [] {
      assert ops[0] in ops;
      PerformKeepsConsistentIff(j, ops[0]);
      ReplayEqualsMemory(Perform(j, ops[0]), ops[1..]);
    }
  }

  /** A command once seen stays seen, in memory and after every reload. */
  lemma {:induction false} SeenIsForever(j: Journal, ops: seq<Operation>)
    requires Consistent(j)
    requires forall op :: op in ops && op.Add? ==> op.item.schemaVersion == "1"
    ensures j.memory.seen <= PerformAll(j, ops).memory.seen
    ensures Replay(PerformAll(j, ops).log).seen == PerformAll(j, ops).memory.seen
    decreases |ops|
  {
    if ops != [] {
      assert ops[0] in ops;
      PerformKeepsConsistentIff(j, ops[0]);
      SeenIsForever(Perform(j, ops[0]), ops[1..]);
    }
  }

  // ---------------------------------------------------------------- interrupted appends

  datatype Cut = BeforeText | InsideRecord | BeforeTerminator

  /** The file after a crash inside the append of `r`. */
  function CutAppend(log: Log, r: Record, cut: Cut): Log
  {
    match cut
    case BeforeText => log
    case InsideRecord => log.(tail := Torn)
    case BeforeTerminator => if log.tail.Closed? then log.(tail := Unterminated(r)) else log.(tail := Torn)
  }

  function AppendAll(log: Log, rs: seq<Record>): Log
    decreases |rs|
  {
    if rs == [] then log else AppendAll(Append(log, rs[0]), rs[1..])
  }

  function Lines(rs: seq<Record>): seq<Line> {
    seq(|rs|, i requires 0 <= i < |rs| => Readable(rs[i]))
  }

  lemma {:induction false} AppendAllToClosed(log: Log, rs: seq<Record>)
    requires log.tail.Closed?
    ensures AppendAll(log, rs) == Log(log.lines + Lines(rs), Closed)
    decreases |rs|
  {
    if rs == [] {
      assert log.lines + Lines(rs) == log.lines;
    } else {
      AppendAllToClosed(Append(log, rs[0]), rs[1..]);
      assert log.lines + Lines(rs) == (log.lines + [Readable(rs[0])]) + Lines(rs[1..]);
    }
  }

  /**
   A torn last line changes nothing on reload.  The next record appended behind it is lost
   with it, and so is a whole record that misses its terminator; every later record counts.
   */
  lemma TornTail(log: Log, rs: seq<Record>)
    requires log.tail != Closed
    ensures log.tail.Torn? ==> Replay(log) == Replay(log.(tail := Closed))
    ensures log.tail.Unterminated? ==> Replay(log) == Apply(Replay(log.(tail := Closed)), Readable(log.tail.record))
    ensures rs != [] ==> Replay(AppendAll(log, rs)) == ApplyAll(Replay(log.(tail := Closed)), Lines(rs[1..]))
  {
    ApplyOne(Empty(), log.lines, Garbage);
    if log.tail.Unterminated? {
      ApplyOne(Empty(), log.lines, Readable(log.tail.record));
    }
    if rs != [] {
      AppendAllToClosed(Append(log, rs[0]), rs[1..]);
      ApplyAllSplit(Empty(), log.lines + [Garbage], Lines(rs[1..]));
    }
  }

  /**
   A reload after an interrupted append sees the operations before it, and the interrupted one whole
   or not at all.
   */
  lemma ReloadAfterInterruption(j: Journal, op: Operation, cut: Cut)
    requires Consistent(j) && Written(j.memory, op).Some? && (op.Add? ==> op.item.schemaVersion == "1")
    ensures Replay(CutAppend(j.log, Written(j.memory, op).value, cut)) ==
      if cut.BeforeTerminator? then Remembered(j.memory, op) else j.memory
  {
    var log := CutAppend(j.log, Written(j.memory, op).value, cut);
    if log.tail != Closed {
      TornTail(log, []);
    }
    RecordSaysWhatIsRemembered(j.memory, op);
  }

  // ---------------------------------------------------------------- the class

  /** The journal file, which outlives the process. */
  class JournalFile {
    var log: Log

    constructor ()
      ensures log == Log([], Closed)
    {
      log := Log([], Closed);
    }
  }

  class EventJournal {
    const file: JournalFile
    var seenCommands: set<string>
    var pending: map<string, AgentEvent>
    var unresolvedFreeCalls: set<string>

    function InMemory(): Memory
      reads this
    {
      Memory(seenCommands, pending, unresolvedFreeCalls)
    }

    function View(): Journal
      reads this, file
    {
      Journal(file.log, InMemory())
    }

    constructor (file: JournalFile)
      ensures this.file == file && file.log == old(file.log)
      ensures InMemory() == Replay(file.log)
    {
      this.file := file;
      seenCommands, pending, unresolvedFreeCalls := {}, map[], {};
      new;
      Load();
    }

    /** Reads the file line by line and skips what is not a record. */
    method Load()
      requires InMemory() == Empty()
      modifies this
      ensures InMemory() == Replay(file.log)
    {
      var lines := LinesRead(file.log);
      for i := 0 to |lines|
        invariant InMemory() == ApplyAll(Empty(), lines[..i])
      {
        assert lines[..i + 1] == lines[..i] + [lines[i]];
        ApplyOne(Empty(), lines[..i], lines[i]);
        if lines[i].Readable? {
          var r := lines[i].record;
          if r.kind == Command {
            seenCommands := seenCommands + {r.commandId};
          }
          if r.kind == FreeCallIntent {
            unresolvedFreeCalls := unresolvedFreeCalls + {r.commandId};
          }
          if r.kind == FreeCallResolved {
            unresolvedFreeCalls := unresolvedFreeCalls - {r.commandId};
          }
          if r.kind == Event && r.eventId.Some? && r.callId.Some? && r.state.Some? {
            pending := pending[r.eventId.value :=
              AgentEvent("1", r.commandId, r.callId.value, r.eventId.value, r.state.value, r.at, r.reasonCode)];
          }
          if r.kind == Ack && r.eventId.Some? {
            pending := pending - {r.eventId.value};
          }
        }
      }
      assert lines[..|lines|] == lines;
    }

    method AppendRecord(r: Record)
      modifies file
      ensures file.log == Append(old(file.log), r)
    {
      file.log := Append(file.log, r);
    }

    method BeginFreeCall(key: string, at: int)
      modifies this, file
      ensures View() == Perform(old(View()), Operation.BeginFreeCall(key, at))
    {
      AppendRecord(IntentRecord(key, at));
      unresolvedFreeCalls := unresolvedFreeCalls + {key};
    }

    method ResolveFreeCall(key: string, at: int)
      modifies this, file
      ensures View() == Perform(old(View()), Operation.ResolveFreeCall(key, at))
    {
      AppendRecord(ResolvedRecord(key, at));
      unresolvedFreeCalls := unresolvedFreeCalls - {key};
    }

    method MarkCommand(id: string, at: int)
      modifies this, file
      ensures View() == Perform(old(View()), Operation.MarkCommand(id, at))
    {
      if id !in seenCommands {
        seenCommands := seenCommands + {id};
        AppendRecord(CommandRecord(id, at));
      } else {
        assert seenCommands + {id} == seenCommands;
      }
    }

    method Add(item: AgentEvent)
      modifies this, file
      ensures View() == Perform(old(View()), Operation.Add(item))
    {
      pending := pending[item.eventId := item];
      AppendRecord(EventRecord(item));
    }

    method Acknowledge(item: AgentEvent, at: int)
      modifies this, file
      ensures View() == Perform(old(View()), Operation.Acknowledge(item, at))
    {
      if item.eventId in pending {
        pending := pending - {item.eventId};
        AppendRecord(AckRecord(item, at));
      } else {
        assert pending - {item.eventId} == pending;
      }
    }
  }
}
