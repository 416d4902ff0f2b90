/**
 The in-memory store behind durable machines: one saved state per machine and one table of
 pending commands shared by all of them, with transactions that roll back on a throw.
 */
module MachineStores {
  import opened Options
  import opened Machines

  /** A saved state with the deadlines already fired in it. */
  datatype Stored = Stored(state: State, epoch: nat, fired: map<string, int>)
  datatype Entry = Entry(id: nat, command: Command, epoch: nat, release: bool, attempts: nat, due: int)
  datatype Row = Row(machine: string, entry: Entry)
  datatype Snapshot = Snapshot(states: map<string, Stored>, rows: seq<Row>, next: nat)

  /** One machine's pending commands, in table order. */
  function Queue(rows: seq<Row>, machine: string): seq<Entry> {
    if rows == [] then []
    else (if rows[0].machine == machine then [rows[0].entry] else []) + Queue(rows[1..], machine)
  }

  /** `remove` keeps every row but the one with this identifier. */
  function Without(rows: seq<Row>, id: nat): seq<Row> {
    if rows == [] then []
    else (if rows[0].entry.id == id then [] else [rows[0]]) + Without(rows[1..], id)
  }

  function Retried(entry: Entry, id: nat, attempts: nat, due: int): Entry {
    if entry.id == id then entry.(attempts := attempts, due := due) else entry
  }

  /** `reschedule` rewrites the row with this identifier in place. */
  function Rescheduled(rows: seq<Row>, id: nat, attempts: nat, due: int): seq<Row> {
    seq(|rows|, i requires 0 <= i < |rows| =>
      Row(rows[i].machine, Retried(rows[i].entry, id, attempts, due)))
  }

  /** Identifiers grow along the table, so table order is enqueue order. */
  ghost predicate Ordered(rows: seq<Row>, next: nat) {
    && (forall i, j | 0 <= i < j < |rows| :: rows[i].entry.id < rows[j].entry.id)
    && (forall row | row in rows :: row.entry.id < next)
  }

  ghost predicate OrderedQueue(queue: seq<Entry>, next: nat) {
    && (forall i, j | 0 <= i < j < |queue| :: queue[i].id < queue[j].id)
    && (forall entry | entry in queue :: entry.id < next)
  }

  class MemoryStore {
    var states: map<string, Stored>
    var rows: seq<Row>
    var next: nat
    var depth: nat

    ghost predicate Valid() reads this { Ordered(rows, next) }

    function Db(): (db: Snapshot) reads this { Snapshot(states, rows, next) }

    constructor ()
      ensures Valid() && Db() == Snapshot(map[], [], 1) && depth == 0
    {
      states, rows, next, depth := map[], [], 1, 0;
    }

    /** Enters a transaction; a nested one joins the outer and keeps no snapshot of its own. */
    method Begin() returns (saved: Option<Snapshot>)
      modifies this`depth
      ensures saved == (if old(depth) == 0 then Some(Db()) else None)
      ensures depth == old(depth) + (if old(depth) == 0 then 1 else 0)
    {
      if depth > 0 { return None; }
      saved := Some(Snapshot(states, rows, next));
      depth := depth + 1;
    }

    /** Leaves it; only the outermost transaction undoes what a throw leaves behind. */
    method End(saved: Option<Snapshot>, threw: bool)
      requires saved.Some? ==> depth > 0
      modifies this
      ensures Db() == (if threw && saved.Some? then saved.value else old(Db()))
      ensures depth == old(depth) - (if saved.Some? then 1 else 0)
    {
      match saved {
        case None =>
        case Some(before) =>
          if threw { states, rows, next := before.states, before.rows, before.next; }
          depth := depth - 1;
      }
    }

    method Save(machine: string, value: Stored)
      modifies this`states
      ensures states == old(states)[machine := value]
    {
      states := states[machine := value];
    }

    /** Appends a pending command under a fresh identifier. */
    method Enqueue(machine: string, command: Command, epoch: nat, release: bool, due: int) returns (id: nat)
      requires Valid()
      modifies this`rows, this`next
      ensures Valid() && id == old(next) && next == id + 1
      ensures forall key :: Queue(rows, key) ==
                old(Queue(rows, key)) + (if key == machine then [Entry(id, command, epoch, release, 0, due)] else [])
    {
      id := next;
      next := next + 1;
      var row := Row(machine, Entry(id, command, epoch, release, 0, due));
      forall key ensures Queue(rows + [row], key) == Queue(rows, key) + (if key == machine then [row.entry] else []) {
        QueueAppends(rows, row, key);
      }
      rows := rows + [row];
    }

    method Remove(id: nat)
      requires Valid()
      modifies this`rows
      ensures Valid() && rows == Without(old(rows), id)
    {
      WithoutStaysOrdered(rows, id, next);
      rows := Without(rows, id);
    }

    method Reschedule(id: nat, attempts: nat, due: int)
      requires Valid()
      modifies this`rows
      ensures Valid() && rows == Rescheduled(old(rows), id, attempts, due)
    {
      rows := seq(|rows|, i requires 0 <= i < |rows| reads this =>
        Row(rows[i].machine, Retried(rows[i].entry, id, attempts, due)));
    }
  }

  lemma {:induction false} QueueAppends(rows: seq<Row>, row: Row, key: string)
    ensures Queue(rows + [row], key) == Queue(rows, key) + (if row.machine == key then [row.entry] else [])
  {
    if rows == [] {
    } else {
      QueueAppends(rows[1..], row, key);
      assert (rows + [row])[1..] == rows[1..] + [row];
    }
  }

  lemma {:induction false} QueueMembers(rows: seq<Row>, key: string, entry: Entry)
    ensures entry in Queue(rows, key) <==> Row(key, entry) in rows
  {
    if rows == [] {
    } else {
      QueueMembers(rows[1..], key, entry);
      assert rows == [rows[0]] + rows[1..];
    }
  }

  lemma OrderedTail(rows: seq<Row>, next: nat)
    requires rows != [] && Ordered(rows, next)
    ensures Ordered(rows[1..], next) && rows[0].entry.id < next
    ensures forall row | row in rows[1..] :: rows[0].entry.id < row.entry.id
  {
    assert rows[0] in rows;
    forall row | row in rows[1..] ensures rows[0].entry.id < row.entry.id && row.entry.id < next {
      var i :| 0 <= i < |rows| - 1 && rows[1..][i] == row;
      assert rows[i + 1] == row;
    }
    forall i, j | 0 <= i < j < |rows| - 1 ensures rows[1..][i].entry.id < rows[1..][j].entry.id {
      assert rows[1..][i] == rows[i + 1] && rows[1..][j] == rows[j + 1];
    }
  }

  lemma OrderedHead(head: Entry, queue: seq<Entry>, next: nat)
    requires OrderedQueue(queue, next) && head.id < next
    requires forall entry | entry in queue :: head.id < entry.id
    ensures OrderedQueue([head] + queue, next)
  {
    var all := [head] + queue;
    forall i, j | 0 <= i < j < |all| ensures all[i].id < all[j].id {
      assert all[j] == queue[j - 1];
      if i > 0 { assert all[i] == queue[i - 1]; }
    }
  }

  /** Each machine sees its own commands in enqueue order. */
  lemma {:induction false} QueueStaysOrdered(rows: seq<Row>, key: string, next: nat)
    requires Ordered(rows, next)
    ensures OrderedQueue(Queue(rows, key), next)
  {
    if rows == [] {
    } else {
      OrderedTail(rows, next);
      QueueStaysOrdered(rows[1..], key, next);
      var rest := Queue(rows[1..], key);
      forall entry | entry in rest ensures rows[0].entry.id < entry.id { QueueMembers(rows[1..], key, entry); }
      if rows[0].machine == key { OrderedHead(rows[0].entry, rest, next); }
      else { assert Queue(rows, key) == rest; }
    }
  }

  lemma {:induction false} WithoutMembers(rows: seq<Row>, id: nat, row: Row)
    ensures row in Without(rows, id) <==> row in rows && row.entry.id != id
  {
    if rows == [] {
    } else {
      WithoutMembers(rows[1..], id, row);
      assert rows == [rows[0]] + rows[1..];
    }
  }

  lemma {:induction false} WithoutStaysOrdered(rows: seq<Row>, id: nat, next: nat)
    requires Ordered(rows, next)
    ensures Ordered(Without(rows, id), next)
  {
    if rows == [] {
    } else {
      WithoutStaysOrdered(rows[1..], id, next);
      forall row | row in Without(rows[1..], id) ensures rows[0].entry.id < row.entry.id {
        WithoutMembers(rows[1..], id, row);
      }
    }
  }

  lemma {:induction false} WithoutAbsent(rows: seq<Row>, id: nat)
    requires forall row | row in rows :: row.entry.id != id
    ensures Without(rows, id) == rows
  {
    if rows == [] {
    } else {
      WithoutAbsent(rows[1..], id);
      assert rows[0] in rows;
    }
  }

  /** Removing the head of one machine's outbox leaves its tail and every other outbox. */
  lemma {:induction false} RemovingTheHead(rows: seq<Row>, machine: string, next: nat, key: string)
    requires Ordered(rows, next) && Queue(rows, machine) != []
    ensures var id := Queue(rows, machine)[0].id;
            Queue(Without(rows, id), key)
            == if key == machine then Queue(rows, machine)[1..] else Queue(rows, key)
  {
    var id := Queue(rows, machine)[0].id;
    if rows[0].machine == machine {
      assert Queue(rows, machine)[1..] == Queue(rows[1..], machine);
      WithoutAbsent(rows[1..], id);
      assert Without(rows, id) == rows[1..];
    } else {
      QueueMembers(rows[1..], machine, Queue(rows[1..], machine)[0]);
      RemovingTheHead(rows[1..], machine, next, key);
    }
  }

  /** Rescheduling it rewrites that entry alone and moves nothing. */
  lemma {:induction false} ReschedulingTheHead(
    rows: seq<Row>, machine: string, next: nat, attempts: nat, due: int, key: string)
    requires Ordered(rows, next) && Queue(rows, machine) != []
    ensures var was := Queue(rows, machine);
            Queue(Rescheduled(rows, was[0].id, attempts, due), key)
            == if key == machine then [was[0].(attempts := attempts, due := due)] + was[1..] else Queue(rows, key)
  {
    var was := Queue(rows, machine);
    var moved := Rescheduled(rows, was[0].id, attempts, due);
    assert moved[1..] == Rescheduled(rows[1..], was[0].id, attempts, due);
    if rows[0].machine == machine {
      assert Rescheduled(rows[1..], was[0].id, attempts, due) == rows[1..];
    } else {
      QueueMembers(rows[1..], machine, Queue(rows[1..], machine)[0]);
      ReschedulingTheHead(rows[1..], machine, next, attempts, due, key);
    }
  }
}
