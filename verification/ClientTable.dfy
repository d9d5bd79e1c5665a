/** The socket client: calls wait in a shared table until the reader has an answer, or
    reader or writer fail them. */
module ClientTable {
  import opened Wrappers

  type MessageId = nat

  /** One call of `request`, with the receiving half of its reply channel. */
  type Call = nat

  /** What arrives on a call's reply channel. */
  datatype Reply =
    | Answer(correlation: MessageId, isError: bool)
    | ServiceError
    | TransportClosed
    | SenderDropped

  // --------------------------------------------------------------- the shared table

  /** The senders that wait in the table, and what the others have delivered. */
  datatype Table = Table(pending: map<MessageId, Call>, replies: map<Call, Reply>)

  /** A call enters; a sender already there under its id is dropped. */
  function Inserted(tb: Table, id: MessageId, call: Call): Table {
    Table(tb.pending[id := call], if id in tb.pending then tb.replies[tb.pending[id] := SenderDropped] else tb.replies)
  }

  /** The sender under an id is taken out and used. */
  function Settled(tb: Table, id: MessageId, reply: Reply): Table {
    if id in tb.pending then Table(tb.pending - {id}, tb.replies[tb.pending[id] := reply]) else tb
  }

  /** The calls are told that the connection is closed. */
  function Told(replies: map<Call, Reply>, calls: set<Call>): map<Call, Reply> {
    replies + map call | call in calls :: TransportClosed
  }

  /** All senders are taken out and told so. */
  function Drained(tb: Table): Table { Table(map[], Told(tb.replies, tb.pending.Values)) }

  class PendingRequests {
    var pending: map<MessageId, Call>
    var replies: map<Call, Reply>

    ghost function Value(): Table
      reads this
    {
      Table(pending, replies)
    }

    constructor ()
      ensures Value() == Table(map[], map[])
    {
      pending, replies := map[], map[];
    }

    method Insert(id: MessageId, call: Call)
      modifies this
      ensures Value() == Inserted(old(Value()), id, call)
      ensures pending == old(pending)[id := call]
      ensures replies == if id in old(pending) then old(replies)[old(pending)[id] := SenderDropped] else old(replies)
    {
      if id in pending { replies := replies[pending[id] := SenderDropped]; }
      pending := pending[id := call];
    }

    method FailOne(id: MessageId, reply: Reply)
      modifies this
      ensures Value() == Settled(old(Value()), id, reply)
      ensures if id in old(pending)
              then pending == old(pending) - {id} && replies == old(replies)[old(pending)[id] := reply]
              else pending == old(pending) && replies == old(replies)
    {
      if id in pending {
        replies := replies[pending[id] := reply];
        pending := pending - {id};
      }
    }

    method FailAll()
      modifies this
      ensures Value() == Drained(old(Value()))
      ensures pending == map[] && replies.Keys == old(replies.Keys) + old(pending.Values)
      ensures forall call :: call in replies ==>
                replies[call] == if call in old(pending.Values) then TransportClosed else old(replies)[call]
    {
      var senders := pending;
      pending := map[];
      hide Told;
      while senders != map[]
        invariant pending == map[]
        invariant Told(replies, senders.Values) == old(Told(replies, pending.Values))
        decreases |senders|
      {
        var id :| id in senders;
        OneFewer(replies, senders, id);
        replies := replies[senders[id] := TransportClosed];
        senders := senders - {id};
      }
      NobodyTold(replies);
      assert senders.Values == {};
      EverybodyTold(old(replies), old(pending.Values));
    }
  }

  lemma EverybodyTold(replies: map<Call, Reply>, calls: set<Call>)
    ensures Told(replies, calls).Keys == replies.Keys + calls
    ensures forall call :: call in replies.Keys + calls ==>
              Told(replies, calls)[call] == if call in calls then TransportClosed else replies[call]
  {}

  lemma NobodyTold(replies: map<Call, Reply>)
    ensures Told(replies, {}) == replies
  {}

  lemma OneFewer(replies: map<Call, Reply>, senders: map<MessageId, Call>, id: MessageId)
    requires id in senders
    ensures Told(replies[senders[id] := TransportClosed], (senders - {id}).Values) == Told(replies, senders.Values)
  {
    ValuesWithout(senders, id);
  }

  lemma ValuesWithout(senders: map<MessageId, Call>, id: MessageId)
    requires id in senders
    ensures senders.Values == (senders - {id}).Values + {senders[id]}
  {
    var rest := senders - {id};
    forall call | call in senders.Values ensures call == senders[id] || call in rest.Values {
      var other :| other in senders && senders[other] == call;
      if other != id { assert rest[other] == call; }
    }
  }

  // -------------------------------------------------------------------- the client

  datatype CallState =
    | Registered(id: MessageId)
    | Waiting(id: MessageId)
    | Answered(id: MessageId, reply: Reply)

  /** The reader and writer tasks; a failing one has failed the calls, but still takes
      what is handed to it. */
  datatype Task = Alive | Failing | Ended

  datatype Client = Client(
    table: Table, calls: map<Call, CallState>, outbox: seq<MessageId>, reader: Task, writer: Task)

  const CONNECTED := Client(Table(map[], map[]), map[], [], Alive, Alive)

  datatype Step =
    | Begin(call: Call, id: MessageId)
    | HandOver(call: Call)
    | Receive(call: Call)
    | Write(encoded: bool, written: bool)
    | WriterEnds
    | ReadResponse(correlation: Option<MessageId>, isError: bool)
    | ReadOther
    | ReadFails

  function Exec(c: Client, step: Step): Client {
    match step
    case Begin(call, id) =>
      if call in c.calls then c
      else c.(table := Inserted(c.table, id, call), calls := c.calls[call := Registered(id)])
    case HandOver(call) =>
      if call !in c.calls || !c.calls[call].Registered? then c
      else
        var id := c.calls[call].id;
        if c.writer == Ended then
          c.(table := Settled(c.table, id, SenderDropped), calls := c.calls[call := Answered(id, TransportClosed)])
        else c.(outbox := c.outbox + [id], calls := c.calls[call := Waiting(id)])
    case Receive(call) =>
      if call !in c.calls || !c.calls[call].Waiting? || call !in c.table.replies then c
      else c.(calls := c.calls[call := Answered(c.calls[call].id, c.table.replies[call])])
    case Write(encoded, written) =>
      if c.writer != Alive || c.outbox == [] then c
      else if !encoded then c.(table := Settled(c.table, c.outbox[0], ServiceError), outbox := c.outbox[1..])
      else if !written then c.(table := Drained(c.table), outbox := c.outbox[1..], writer := Failing)
      else c.(outbox := c.outbox[1..])
    case WriterEnds => if c.writer == Failing then c.(writer := Ended) else c
    case ReadResponse(correlation, isError) =>
      if c.reader == Alive && correlation.Some? then
        c.(table := Settled(c.table, correlation.value, Answer(correlation.value, isError)))
      else c
    case ReadOther => c
    case ReadFails => if c.reader == Alive then c.(table := Drained(c.table), reader := Ended) else c
  }

  function After(steps: seq<Step>): Client
    decreases |steps|
  {
    if steps == [] then CONNECTED else Exec(After(steps[..|steps| - 1]), steps[|steps| - 1])
  }

  // ----------------------------------------------------------------------- invariant

  predicate InTable(tb: Table, call: Call, id: MessageId) { id in tb.pending && tb.pending[id] == call }

  /** A call that is not answered is in the table under its own id, or has its reply;
      and only a response to its own id can be its reply, short of a failure. */
  predicate CallOk(tb: Table, call: Call, state: CallState) {
    && (!state.Answered? ==> (InTable(tb, call, state.id) <==> call !in tb.replies))
    && (call in tb.replies && tb.replies[call].Answer? ==> tb.replies[call].correlation == state.id)
    && (state.Answered? && state.reply.Answer? ==> state.reply.correlation == state.id)
  }

  /** A sender in the table belongs to an unanswered call of that id. */
  predicate EntryOk(c: Client, id: MessageId)
    requires id in c.table.pending
  {
    var call := c.table.pending[id];
    call in c.calls && !c.calls[call].Answered? && c.calls[call].id == id
  }

  ghost predicate Inv(c: Client) {
    && (forall call :: call in c.calls ==> CallOk(c.table, call, c.calls[call]))
    && (forall id :: id in c.table.pending ==> EntryOk(c, id))
    && (forall call :: call in c.table.replies ==> call in c.calls)
  }

  lemma SettledKeeps(c: Client, id: MessageId, reply: Reply)
    requires Inv(c) && (reply.Answer? ==> reply.correlation == id)
    ensures Inv(c.(table := Settled(c.table, id, reply)))
  {}

  lemma DrainedKeeps(c: Client)
    requires Inv(c)
    ensures Inv(c.(table := Drained(c.table)))
  {}

  lemma BeginKeeps(c: Client, call: Call, id: MessageId)
    requires Inv(c)
    ensures Inv(Exec(c, Begin(call, id)))
  {}

  lemma HandOverKeeps(c: Client, call: Call)
    requires Inv(c)
    ensures Inv(Exec(c, HandOver(call)))
  {}

  lemma ReceiveKeeps(c: Client, call: Call)
    requires Inv(c)
    ensures Inv(Exec(c, Receive(call)))
  {}

  /** Every step of callers, reader and writer keeps the invariant. */
  lemma ExecKeeps(c: Client, step: Step)
    requires Inv(c)
    ensures Inv(Exec(c, step))
  {
    hide Inserted, Settled, Drained;
    match step
    case Begin(call, id) => hide Inv, Exec; BeginKeeps(c, call, id);
    case HandOver(call) => hide Inv, Exec; HandOverKeeps(c, call);
    case Receive(call) => hide Inv, Exec; ReceiveKeeps(c, call);
    case Write(_, _) =>
      if c.outbox != [] { SettledKeeps(c, c.outbox[0], ServiceError); }
      DrainedKeeps(c);
    case WriterEnds =>
    case ReadResponse(correlation, isError) =>
      if correlation.Some? { SettledKeeps(c, correlation.value, Answer(correlation.value, isError)); }
    case ReadOther =>
    case ReadFails => DrainedKeeps(c);
  }

  lemma {:induction false} EveryRunOk(steps: seq<Step>)
    ensures Inv(After(steps))
    decreases |steps|
  {
    if steps != [] {
      EveryRunOk(steps[..|steps| - 1]);
      ExecKeeps(After(steps[..|steps| - 1]), steps[|steps| - 1]);
    }
  }

  // ------------------------------------------------------------------------- laws

  /** A call ends with a response to its own request, or with a failure. */
  lemma OwnAnswerOnly(steps: seq<Step>, call: Call)
    requires var c := After(steps); call in c.calls && c.calls[call].Answered?
    ensures var state := After(steps).calls[call]; state.reply.Answer? ==> state.reply.correlation == state.id
  {
    EveryRunOk(steps);
  }

  /** The step tells the call: a response to its own request, with the flag that was
      read; a request of its own that cannot be encoded; the end of the reader, a write
      that fails, or its own hand-over to a writer that has ended; or a call under the
      same id that enters, or is handed over too late. */
  predicate Tells(c: Client, step: Step, call: Call, id: MessageId, reply: Reply) {
    match reply
    case Answer(correlation, isError) =>
      c.reader == Alive && correlation == id && step == ReadResponse(Some(id), isError)
    case ServiceError =>
      c.writer == Alive && c.outbox != [] && c.outbox[0] == id && step.Write? && !step.encoded
    case TransportClosed =>
      || (c.reader == Alive && step == ReadFails)
      || (c.writer == Alive && step == Write(true, false))
      || (c.writer == Ended && step == HandOver(call))
    case SenderDropped =>
      || (step.Begin? && step.id == id && step.call != call)
      || (c.writer == Ended && step.HandOver? && step.call in c.calls && c.calls[step.call].id == id)
  }

  predicate TellsAt(steps: seq<Step>, k: int, call: Call, id: MessageId, reply: Reply) {
    0 <= k < |steps| && Tells(After(steps[..k]), steps[k], call, id, reply)
  }

  ghost predicate WasTold(steps: seq<Step>, call: Call, id: MessageId, reply: Reply) {
    exists k :: TellsAt(steps, k, call, id, reply)
  }

  predicate HasReply(c: Client, call: Call, reply: Reply) {
    call in c.calls
    && ((call in c.table.replies && c.table.replies[call] == reply)
        || (c.calls[call].Answered? && c.calls[call].reply == reply))
  }

  /** A reply was there before, or the step tells it. */
  lemma StepTells(c: Client, step: Step, call: Call, reply: Reply)
    requires Inv(c) && HasReply(Exec(c, step), call, reply)
    ensures HasReply(c, call, reply) || Tells(c, step, call, Exec(c, step).calls[call].id, reply)
    ensures call in c.calls ==> Exec(c, step).calls[call].id == c.calls[call].id
  {}

  lemma ToldMore(steps: seq<Step>, call: Call, id: MessageId, reply: Reply)
    requires steps != [] && (var n := |steps| - 1;
               WasTold(steps[..n], call, id, reply) || Tells(After(steps[..n]), steps[n], call, id, reply))
    ensures WasTold(steps, call, id, reply)
  {
    hide After, Tells;
    var n := |steps| - 1;
    if Tells(After(steps[..n]), steps[n], call, id, reply) {
      assert TellsAt(steps, n, call, id, reply);
    } else {
      var k :| TellsAt(steps[..n], k, call, id, reply);
      assert steps[..n][..k] == steps[..k];
      assert TellsAt(steps, k, call, id, reply);
    }
  }

  /** Over every run, whatever a call was told, or ends with, some step told it: an answer
      and its error flag are those of a response to its own request. */
  lemma {:induction false} RepliesWereTold(steps: seq<Step>, call: Call, reply: Reply)
    requires HasReply(After(steps), call, reply)
    ensures WasTold(steps, call, After(steps).calls[call].id, reply)
    decreases |steps|
  {
    hide Exec, HasReply, Tells, WasTold;
    if steps == [] {
      NoReplies(call, reply);
    } else {
      Known(After(steps), call, reply);
      var front := steps[..|steps| - 1];
      EveryRunOk(front);
      StepTells(After(front), steps[|steps| - 1], call, reply);
      if HasReply(After(front), call, reply) {
        Known(After(front), call, reply);
        RepliesWereTold(front, call, reply);
      }
      ToldMore(steps, call, After(steps).calls[call].id, reply);
    }
  }

  lemma NoReplies(call: Call, reply: Reply)
    ensures !HasReply(CONNECTED, call, reply)
  {}

  lemma Known(c: Client, call: Call, reply: Reply)
    requires HasReply(c, call, reply)
    ensures call in c.calls
  {}

  /** A call that is handed over waits behind those handed over before; if the writer has
      ended, it ends at once, and leaves the table. */
  lemma HandOverIs(c: Client, call: Call)
    requires call in c.calls && c.calls[call].Registered?
    ensures var d, id := Exec(c, HandOver(call)), c.calls[call].id;
            if c.writer == Ended then
              && d.calls == c.calls[call := Answered(id, TransportClosed)]
              && id !in d.table.pending && d.outbox == c.outbox
            else d.calls == c.calls[call := Waiting(id)] && d.table == c.table && d.outbox == c.outbox + [id]
  {}

  /** A response that is read while its call waits is what the call ends with, as soon
      as it looks. */
  lemma AnswerArrives(steps: seq<Step>, call: Call, isError: bool)
    requires var c := After(steps);
             c.reader == Alive && call in c.calls && c.calls[call].Waiting? && call !in c.table.replies
    ensures var c := After(steps);
            var id := c.calls[call].id;
            var d := Exec(Exec(c, ReadResponse(Some(id), isError)), Receive(call));
            call in d.calls && d.calls[call] == Answered(id, Answer(id, isError))
  {
    EveryRunOk(steps);
    hide After;
  }

  /** An unanswered call is in the table under its id exactly if nothing has been
      delivered to it: no call is lost, and none is delivered to twice. */
  lemma PendingExactly(steps: seq<Step>, call: Call)
    requires var c := After(steps); call in c.calls && !c.calls[call].Answered?
    ensures var c := After(steps);
            var id := c.calls[call].id;
            (id in c.table.pending && c.table.pending[id] == call) <==> call !in c.table.replies
  {
    EveryRunOk(steps);
  }

  /** A step of the client leaves answered calls as they are and keeps what was
      delivered, so a call is answered once. */
  predicate Settles(c: Client, d: Client, call: Call)
    requires call in c.calls
  {
    && call in d.calls && d.calls[call].id == c.calls[call].id
    && (c.calls[call].Answered? ==> d.calls[call] == c.calls[call])
    && (!c.calls[call].Answered? && call in c.table.replies ==>
          call in d.table.replies && d.table.replies[call] == c.table.replies[call]
          && (d.calls[call].Answered? ==> d.calls[call].reply in {c.table.replies[call], TransportClosed}))
  }

  lemma StepSettles(c: Client, step: Step, call: Call)
    requires Inv(c) && call in c.calls
    ensures Settles(c, Exec(c, step), call)
  {}

  lemma AfterLast(steps: seq<Step>)
    requires steps != []
    ensures After(steps) == Exec(After(steps[..|steps| - 1]), steps[|steps| - 1])
  {
    hide Exec;
  }

  lemma AfterMore(steps: seq<Step>, more: seq<Step>)
    requires more != []
    ensures After(steps + more) == Exec(After(steps + more[..|more| - 1]), more[|more| - 1])
  {
    hide After, Exec;
    var all := steps + more;
    AfterLast(all);
    assert all[..|all| - 1] == steps + more[..|more| - 1];
  }

  /** Once answered, a call keeps its answer. */
  lemma {:induction false} AnsweredOnce(steps: seq<Step>, more: seq<Step>, call: Call)
    requires var c := After(steps); call in c.calls && c.calls[call].Answered?
    ensures var c, d := After(steps), After(steps + more); call in d.calls && d.calls[call] == c.calls[call]
    decreases |more|
  {
    if more == [] {
      assert steps + more == steps;
    } else {
      var front := more[..|more| - 1];
      AnsweredOnce(steps, front, call);
      EveryRunOk(steps + front);
      AfterMore(steps, more);
      StepSettles(After(steps + front), more[|more| - 1], call);
    }
  }

  // ----------------------------------------------------------------- calls that hang

  /** No other call shares the id of this one. */
  predicate Alone(c: Client, call: Call)
    requires call in c.calls
  {
    forall other :: other in c.calls && c.calls[other].id == c.calls[call].id ==> other == call
  }

  predicate NewIds(steps: seq<Step>, id: MessageId) {
    forall i :: 0 <= i < |steps| && steps[i].Begin? ==> steps[i].id != id
  }

  lemma Next(steps: seq<Step>, k: nat)
    requires k < |steps|
    ensures After(steps[..k + 1]) == Exec(After(steps[..k]), steps[k])
  {
    hide Exec;
    assert steps[..k + 1][..k] == steps[..k];
  }

  lemma {:induction false} NoneWith(steps: seq<Step>, id: MessageId)
    requires NewIds(steps, id)
    ensures forall call :: call in After(steps).calls ==> After(steps).calls[call].id != id
    decreases |steps|
  {
    if steps != [] {
      var front, last := steps[..|steps| - 1], steps[|steps| - 1];
      NoneWith(front, id);
      IdsStay(After(front), last);
    }
  }

  lemma IdsStay(c: Client, step: Step)
    ensures var d := Exec(c, step);
            forall call :: call in d.calls ==>
              if call in c.calls then d.calls[call].id == c.calls[call].id
              else step.Begin? && d.calls[call].id == step.id
  {
    hide Inserted, Settled, Drained;
  }

  /** Something has been delivered to the call, or it has ended. */
  predicate Served(c: Client, call: Call) {
    call in c.calls && (c.calls[call].Answered? || call in c.table.replies)
  }

  /** A step that serves a call when the reader has ended: its own request, or any,
      cannot be written, or it is handed over to a writer that has ended. */
  predicate Serves(c: Client, step: Step, call: Call, id: MessageId) {
    || (step.Write? && c.writer == Alive && c.outbox != [] && if step.encoded then !step.written else c.outbox[0] == id)
    || (step == HandOver(call) && call in c.calls && c.calls[call].Registered? && c.writer == Ended)
  }

  predicate ServesAt(steps: seq<Step>, k: nat, j: int, call: Call, id: MessageId) {
    k < j < |steps| && Serves(After(steps[..j]), steps[j], call, id)
  }

  /** Some step after the `k`-th and before the `n`-th serves the call. */
  ghost predicate ServedWithin(steps: seq<Step>, k: nat, n: nat, call: Call, id: MessageId) {
    exists j :: ServesAt(steps, k, j, call, id) && j < n
  }

  lemma ServedWithinMore(steps: seq<Step>, k: nat, n: nat, call: Call, id: MessageId)
    requires k < n - 1 < |steps|
    ensures ServedWithin(steps, k, n, call, id) <==>
              ServedWithin(steps, k, n - 1, call, id) || Serves(After(steps[..n - 1]), steps[n - 1], call, id)
  {
    hide After, Serves;
    assert ServesAt(steps, k, n - 1, call, id) <==> Serves(After(steps[..n - 1]), steps[n - 1], call, id);
  }

  /** Step `k` is where `call` enters, the only one with its id. */
  predicate Enters(steps: seq<Step>, k: nat, call: Call, id: MessageId) {
    && k < |steps| && steps[k] == Begin(call, id) && call !in After(steps[..k]).calls
    && forall j :: 0 <= j < |steps| && j != k && steps[j].Begin? ==> steps[j].id != id
  }

  predicate Entered(c: Client, call: Call, id: MessageId) {
    call in c.calls && c.calls[call].id == id && Alone(c, call)
  }

  lemma EnteredFirst(c: Client, call: Call, id: MessageId)
    requires Inv(c) && call !in c.calls && forall other :: other in c.calls ==> c.calls[other].id != id
    ensures var d := Exec(c, Begin(call, id));
            Entered(d, call, id) && !Served(d, call) && d.reader == c.reader
  {}

  lemma EnteredStays(c: Client, step: Step, call: Call, id: MessageId)
    requires Inv(c) && Entered(c, call, id) && (step.Begin? ==> step.id != id)
    ensures Entered(Exec(c, step), call, id)
  {
    hide Inserted, Settled, Drained;
  }

  /** Once the reader has ended, a call becomes served by such a step alone, and by each;
      while it has not, the reader's end serves it. */
  lemma ServedStep(c: Client, step: Step, call: Call, id: MessageId)
    requires Inv(c) && Entered(c, call, id) && (step.Begin? ==> step.id != id)
    ensures var d := Exec(c, step);
            && (c.reader == Ended ==>
                  d.reader == Ended && (Served(d, call) <==> Served(c, call) || Serves(c, step, call, id)))
            && (c.reader != Ended && d.reader == Ended ==> Served(d, call))
            && (Served(c, call) ==> Served(d, call))
  {}

  /** What is known of a call that entered when the reader had ended (`late`) or had not,
      and that some step has served or none (`within`). */
  predicate Accounted(c: Client, call: Call, id: MessageId, late: bool, within: bool) {
    && Entered(c, call, id)
    && (late ==> c.reader == Ended)
    && (c.reader == Ended ==> (Served(c, call) <==> !late || within))
  }

  lemma AccountedStep(c: Client, step: Step, call: Call, id: MessageId, late: bool, within: bool)
    requires Inv(c) && Accounted(c, call, id, late, within) && (step.Begin? ==> step.id != id)
    ensures Accounted(Exec(c, step), call, id, late, within || Serves(c, step, call, id))
  {
    hide Inv, Exec, Served, Serves, Entered;
    EnteredStays(c, step, call, id);
    ServedStep(c, step, call, id);
  }

  /** The account of the call after `n` steps. */
  ghost predicate AccountedAt(steps: seq<Step>, k: nat, call: Call, id: MessageId, n: nat)
    requires k < n <= |steps|
  {
    Accounted(After(steps[..n]), call, id, After(steps[..k]).reader == Ended, ServedWithin(steps, k, n, call, id))
  }

  lemma AccountedFirst(steps: seq<Step>, k: nat, call: Call, id: MessageId)
    requires Enters(steps, k, call, id)
    ensures AccountedAt(steps, k, call, id, k + 1)
  {
    Next(steps, k);
    EveryRunOk(steps[..k]);
    NoneWith(steps[..k], id);
    hide After, Exec, Served, Inv, Entered;
    EnteredFirst(After(steps[..k]), call, id);
  }

  lemma AccountedNext(steps: seq<Step>, k: nat, call: Call, id: MessageId, n: nat)
    requires k < n < |steps| && AccountedAt(steps, k, call, id, n) && (steps[n].Begin? ==> steps[n].id != id)
    ensures AccountedAt(steps, k, call, id, n + 1)
  {
    hide After, Exec, Accounted, Serves, Inv, ServedWithin;
    Next(steps, n);
    EveryRunOk(steps[..n]);
    var late := After(steps[..k]).reader == Ended;
    AccountedStep(After(steps[..n]), steps[n], call, id, late, ServedWithin(steps, k, n, call, id));
    ServedWithinMore(steps, k, n + 1, call, id);
  }

  lemma {:induction false} ServedAfter(steps: seq<Step>, k: nat, call: Call, id: MessageId, n: nat)
    requires Enters(steps, k, call, id) && k < n <= |steps|
    ensures AccountedAt(steps, k, call, id, n)
  {
    hide AccountedAt;
    if n == k + 1 {
      AccountedFirst(steps, k, call, id);
    } else {
      ServedAfter(steps, k, call, id, n - 1);
      AccountedNext(steps, k, call, id, n - 1);
    }
  }

  /** In every run in which the reader has ended, a call has got something exactly if
      it entered before that end, or a later step has served it: a write that failed, or
      a hand-over to a writer that had ended. */
  lemma ServedIff(steps: seq<Step>, k: nat, call: Call, id: MessageId)
    requires Enters(steps, k, call, id) && After(steps).reader == Ended
    ensures Served(After(steps), call) <==>
              After(steps[..k]).reader != Ended || ServedWithin(steps, k, |steps|, call, id)
  {
    assert steps[..|steps|] == steps;
    ServedAfter(steps, k, call, id, |steps|);
  }

  // --------------------------------------------------------------- two hanging runs

  /** The call has been handed over, and waits with nothing delivered. */
  predicate Hangs(c: Client, call: Call) {
    c.reader == Ended && call in c.calls && c.calls[call].Waiting? && !Served(c, call)
  }

  /** The reader ends, and a call enters; its request is written. */
  const UNHEARD_RUN: seq<Step> := [ReadFails, Begin(0, 1), HandOver(0), Write(true, true)]

  /** The reader ends; a failing write fails the one call; another enters before the
      writer has ended. */
  const HANGING_RUN: seq<Step> :=
    [ReadFails, Begin(0, 1), HandOver(0), Write(true, false), Begin(2, 3), HandOver(2), WriterEnds]

  lemma OneWaits()
    ensures var c := Exec(Exec(Exec(CONNECTED, ReadFails), Begin(0, 1)), HandOver(0));
            && c.outbox == [1] && c.calls == map[0 := Waiting(1)] && c.reader == Ended && c.writer == Alive
            && c.table.pending == map[1 := 0] && c.table.replies == map[]
  {
    var c1 := Exec(CONNECTED, ReadFails);
    assert c1 == CONNECTED.(reader := Ended);
    var c2 := Exec(c1, Begin(0, 1));
    assert c2.table == Table(map[1 := 0], map[]);
  }

  /** A call that enters after the reader's end hangs although its request is written. */
  lemma UnheardHangs()
    ensures Hangs(After(UNHEARD_RUN), 0) && After(UNHEARD_RUN).writer == Alive
  {
    var steps := UNHEARD_RUN;
    assert After(steps[..0]) == CONNECTED;
    hide After, Exec, Hangs;
    Next(steps, 0);
    Next(steps, 1);
    Next(steps, 2);
    Next(steps, 3);
    assert steps[..4] == steps;
    OneWaits();
    WrittenHangs(After(steps[..3]));
  }

  lemma WrittenHangs(c: Client)
    requires c.outbox == [1] && c.calls == map[0 := Waiting(1)] && c.reader == Ended && c.writer == Alive
    requires c.table.replies == map[]
    ensures Hangs(Exec(c, Write(true, true)), 0) && Exec(c, Write(true, true)).writer == Alive
  {}

  /** A call that enters after everything has been failed, while the writer still takes
      what it is handed, hangs for good: the writer has ended, and fails no more. */
  lemma HangingHappens()
    ensures Hangs(After(HANGING_RUN), 2) && After(HANGING_RUN).writer == Ended
  {
    var steps := HANGING_RUN;
    assert After(steps[..0]) == CONNECTED;
    hide After, Exec, Hangs;
    Next(steps, 0);
    Next(steps, 1);
    Next(steps, 2);
    Next(steps, 3);
    Next(steps, 4);
    Next(steps, 5);
    Next(steps, 6);
    assert steps[..7] == steps;
    OneWaits();
    FailedThenHangs(After(steps[..3]));
  }

  lemma FailedThenHangs(c: Client)
    requires c.outbox == [1] && c.calls == map[0 := Waiting(1)] && c.reader == Ended && c.writer == Alive
    requires c.table.pending == map[1 := 0] && c.table.replies == map[]
    ensures var d := Exec(Exec(Exec(Exec(c, Write(true, false)), Begin(2, 3)), HandOver(2)), WriterEnds);
            Hangs(d, 2) && d.writer == Ended
  {}

  /** For good: once reader and writer have ended, a waiting call with nothing delivered
      stays so in every continuation that does not reuse its id. */
  lemma {:induction false} HangsForever(steps: seq<Step>, more: seq<Step>, k: nat, call: Call, id: MessageId)
    requires Enters(steps, k, call, id) && NewIds(more, id)
    requires Hangs(After(steps), call) && After(steps).writer == Ended
    ensures Hangs(After(steps + more), call) && After(steps + more).writer == Ended
    decreases |more|
  {
    if more == [] {
      assert steps + more == steps;
    } else {
      var front, last := more[..|more| - 1], more[|more| - 1];
      HangsForever(steps, front, k, call, id);
      AfterMore(steps, more);
      var all := steps + front;
      EveryRunOk(all);
      EntersMore(steps, front, k, call, id);
      ServedAfter(all, k, call, id, |all|);
      assert all[..|all|] == all;
      hide After, Inv;
      HangStep(After(all), last, call, id);
    }
  }

  lemma EntersMore(steps: seq<Step>, more: seq<Step>, k: nat, call: Call, id: MessageId)
    requires Enters(steps, k, call, id) && NewIds(more, id)
    ensures Enters(steps + more, k, call, id)
  {
    hide After;
    var all := steps + more;
    assert all[..k] == steps[..k];
    forall j | 0 <= j < |all| && j != k && all[j].Begin? ensures all[j].id != id {
      if j >= |steps| { assert all[j] == more[j - |steps|]; }
    }
  }

  lemma HangStep(c: Client, step: Step, call: Call, id: MessageId)
    requires Inv(c) && Entered(c, call, id) && (step.Begin? ==> step.id != id)
    requires Hangs(c, call) && c.writer == Ended
    ensures Hangs(Exec(c, step), call) && Exec(c, step).writer == Ended
  {
    ServedStep(c, step, call, id);
    hide Inserted, Settled, Drained;
  }
}
