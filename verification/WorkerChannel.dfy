/** The pooled worker as a protocol (crates/orchestrator/src/worker_pool.rs): callers and stoppers
    compete for the slot of one module; whoever holds its lock talks to the child through two
    pipes; the child serves, notifies, prints noise and may die at any moment.

    Every nondeterministic choice (scheduling, deadlines, failures, what the child does) is an
    action, so a run is a sequence of actions.  Reads and writes are whole lines. */
module WorkerChannel {
  import opened Options
  import opened Json
  import opened RpcServer

  /** A line on the child's standard output; absent when it is not JSON. */
  type Line = Option<Json>

  /** A request as issued: by which party, under which id, with what. */
  datatype Request = Request(party: nat, id: nat, name: string, params: Json)

  function RequestJson(r: Request): Json {
    Obj(map["jsonrpc" := Str("2.0"), "id" := Num(r.id), "method" := Str(r.name), "params" := r.params])
  }

  function FrameId(line: Line): Option<nat> {
    match line case None => None case Some(frame) => frame.GetU64("id")
  }

  datatype Verdict = Skip | NotJson | Failure(code: int, message: string) | Value(value: Json) | Neither

  /** What a caller waiting for the answer to `id` makes of a line. */
  function Judge(line: Line, id: nat): Verdict {
    match line
    case None => NotJson
    case Some(frame) =>
      if frame.GetU64("id") != Some(id) then Skip
      else match frame.Get("error")
        case Some(err) =>
          var code := match err.Get("code") case Some(c) => c.AsI64() case None => None;
          Failure(OrElse(code, -1), OrElse(err.GetStr("message"), "unknown rpc error"))
        case None => (
          match frame.Get("result")
          case Some(value) => Value(value)
          case None => Neither)
  }

  datatype Child = Child(
    alive: bool, nextId: nat, callsServed: nat,
    inbox: seq<Request>, busy: Option<Request>, outbox: seq<Line>,
    issued: seq<Request>, answers: map<nat, Json>)

  const NEWBORN := Child(true, 1, 0, [], None, [], [], map[])

  datatype CallResult =
    | Ok(value: Json)
    | RpcError(code: int, message: string)
    | Malformed
    | QueueTimeout
    | Timeout
    | EarlyExit
    | SpawnError

  /** Where a party stands.  `Killing` returns `next`, or tries once more when there is none. */
  datatype Phase =
    | Queued
    | Ensuring(attempt: nat)
    | Ready(attempt: nat, child: nat)
    | Reading(attempt: nat, child: nat, id: nat)
    | Killing(child: nat, next: Option<CallResult>)
    | Finished(result: CallResult)
    | StopQueued
    | Stopping(child: nat)
    | Stopped

  /** `sent` lists the children written to, with the id used. */
  datatype Party = Party(name: string, params: Json, phase: Phase, sent: seq<(nat, nat)>)

  datatype State = State(lock: Option<nat>, slot: Option<nat>, children: seq<Child>, parties: map<nat, Party>)

  const START := State(None, None, [], map[])

  datatype Action =
    | Arrive(p: nat, name: string, params: Json)
    | GiveUp(p: nat)
    | Acquire(p: nat)
    | EnsureLive(p: nat, sawExit: bool, spawned: bool)
    | WriteOk(p: nat)
    | WriteFails(p: nat, delivered: bool, timedOut: bool)
    | ReadLine(p: nat)
    | ReadFails(p: nat)
    | ReadTimesOut(p: nat)
    | KillDone(p: nat)
    | ArriveStop(p: nat)
    | TakeForStop(p: nat)
    | StopDone(p: nat)
    | ChildTakes(k: nat)
    | ChildEmits(k: nat, line: Line)
    | ChildAnswers(k: nat, result: HandlerResult)
    | ChildDies(k: nat)

  // ------------------------------------------------------------------------------------------
  // What an action does
  // ------------------------------------------------------------------------------------------

  /** The reply the server writes to a request (there always is one). */
  function Answer(names: set<string>, r: Request, result: HandlerResult): Json {
    RequestIsAnswered(names, r, result);
    HandleLine(names, Some(RequestJson(r)), (_, _) => result).value
  }

  lemma {:induction false} RequestIsAnswered(names: set<string>, r: Request, result: HandlerResult)
    ensures var reply := HandleLine(names, Some(RequestJson(r)), (_, _) => result);
            reply.Some? && reply.value.Get("id") == Some(Num(r.id))
  {
    RepliesEchoId(names, Some(RequestJson(r)), (_, _) => result);
    assert RequestJson(r).Get("id") == Some(Num(r.id));
  }

  /** Noise is any line that does not carry an id still to come or the latest one before it was
      answered. */
  predicate IsNoise(c: Child, line: Line) {
    var id := FrameId(line);
    id.Some? ==>
      || id.value == 0 || id.value + 1 < c.nextId
      || (id.value + 1 == c.nextId && id.value in c.answers)
  }

  predicate Enabled(s: State, a: Action) {
    match a
    case Arrive(p, _, _) => p !in s.parties
    case GiveUp(p) => p in s.parties && s.parties[p].phase.Queued?
    case Acquire(p) => p in s.parties && s.parties[p].phase.Queued? && s.lock.None?
    case EnsureLive(p, sawExit, _) =>
      && p in s.parties && s.parties[p].phase.Ensuring?
      && (s.slot.Some? ==> s.slot.value < |s.children|)
      && (sawExit ==> s.slot.Some? && !s.children[s.slot.value].alive)
    case WriteOk(p) => CanWrite(s, p)
    case WriteFails(p, _, _) => CanWrite(s, p)
    case ReadLine(p) => IsReading(s, p) && s.children[s.parties[p].phase.child].outbox != []
    case ReadFails(p) => IsReading(s, p)
    case ReadTimesOut(p) => IsReading(s, p)
    case KillDone(p) => p in s.parties && s.parties[p].phase.Killing? && s.parties[p].phase.child < |s.children|
    case ArriveStop(p) => p !in s.parties
    case TakeForStop(p) => p in s.parties && s.parties[p].phase.StopQueued? && s.lock.None?
    case StopDone(p) => p in s.parties && s.parties[p].phase.Stopping? && s.parties[p].phase.child < |s.children|
    case ChildTakes(k) => IsAlive(s, k) && s.children[k].busy.None? && s.children[k].inbox != []
    case ChildEmits(k, line) => IsAlive(s, k) && IsNoise(s.children[k], line)
    case ChildAnswers(k, _) => IsAlive(s, k) && s.children[k].busy.Some?
    case ChildDies(k) => IsAlive(s, k)
  }

  predicate CanWrite(s: State, p: nat) {
    && p in s.parties && s.parties[p].phase.Ready?
    && s.parties[p].phase.child < |s.children|
  }

  predicate IsReading(s: State, p: nat) {
    p in s.parties && s.parties[p].phase.Reading? && s.parties[p].phase.child < |s.children|
  }

  predicate IsAlive(s: State, k: nat) {
    k < |s.children| && s.children[k].alive
  }

  function Moved(s: State, p: nat, phase: Phase): State
    requires p in s.parties
  {
    s.(parties := s.parties[p := s.parties[p].(phase := phase)])
  }

  /** Return a result: the lock is dropped. */
  function Return(s: State, p: nat, result: CallResult): State
    requires p in s.parties
  {
    Moved(s, p, Finished(result)).(lock := None)
  }

  /** Take the child out of the slot and kill it. */
  function StartKill(s: State, p: nat, k: nat, next: Option<CallResult>): State
    requires p in s.parties
  {
    Moved(s, p, Killing(k, next)).(slot := None)
  }

  /** The child was found dead: try once more after the first time. */
  function FoundDead(s: State, p: nat, k: nat, attempt: nat): State
    requires p in s.parties
  {
    StartKill(s, p, k, if attempt == 0 then None else Some(EarlyExit))
  }

  function WithChild(s: State, k: nat, c: Child): State
    requires k < |s.children|
  {
    s.(children := s.children[k := c])
  }

  /** Use up an id; the request reaches the child or it does not. */
  function Issue(c: Child, p: nat, party: Party, delivered: bool): Child {
    var r := Request(p, c.nextId, party.name, party.params);
    c.(nextId := c.nextId + 1, issued := c.issued + [r], inbox := if delivered then c.inbox + [r] else c.inbox)
  }

  function Written(s: State, p: nat, delivered: bool, phase: Phase): State
    requires CanWrite(s, p)
  {
    var party := s.parties[p];
    var k := party.phase.child;
    var id := s.children[k].nextId;
    WithChild(s, k, Issue(s.children[k], p, party, delivered))
      .(parties := s.parties[p := party.(phase := phase, sent := party.sent + [(k, id)])])
  }

  /** The result a line that is not skipped leads to. */
  function VerdictResult(verdict: Verdict): CallResult {
    match verdict
    case Value(v) => Ok(v)
    case Failure(code, message) => RpcError(code, message)
    case _ => Malformed
  }

  /** The child after one of its lines was read; a value counts as a call served. */
  function Consume(c: Child, verdict: Verdict): Child
    requires c.outbox != []
  {
    c.(outbox := c.outbox[1..], callsServed := if verdict.Value? then c.callsServed + 1 else c.callsServed)
  }

  /** The line is consumed; then the caller goes on reading or returns. */
  function TakeLine(s: State, p: nat, k: nat, verdict: Verdict): State
    requires p in s.parties && k < |s.children| && s.children[k].outbox != []
  {
    var s' := WithChild(s, k, Consume(s.children[k], verdict));
    if verdict.Skip? then s' else Return(s', p, VerdictResult(verdict))
  }

  function AfterLine(s: State, p: nat): State
    requires Enabled(s, ReadLine(p))
  {
    var Reading(attempt, k, id) := s.parties[p].phase;
    TakeLine(s, p, k, Judge(s.children[k].outbox[0], id))
  }

  function AfterEnsure(s: State, p: nat, sawExit: bool, spawned: bool): State
    requires Enabled(s, EnsureLive(p, sawExit, spawned))
  {
    var attempt := s.parties[p].phase.attempt;
    if s.slot.Some? && !sawExit then Moved(s, p, Ready(attempt, s.slot.value))
    else if spawned then
      Moved(s, p, Ready(attempt, |s.children|)).(slot := Some(|s.children|), children := s.children + [NEWBORN])
    else Return(s, p, SpawnError).(slot := None)
  }

  function Apply(names: set<string>, s: State, a: Action): State
    requires Enabled(s, a)
  {
    match a
    case Arrive(p, name, params) => s.(parties := s.parties[p := Party(name, params, Queued, [])])
    case GiveUp(p) => Moved(s, p, Finished(QueueTimeout))
    case Acquire(p) => Moved(s, p, Ensuring(0)).(lock := Some(p))
    case EnsureLive(p, sawExit, spawned) => AfterEnsure(s, p, sawExit, spawned)
    case WriteOk(p) =>
      var phase := s.parties[p].phase;
      Written(s, p, true, Reading(phase.attempt, phase.child, s.children[phase.child].nextId))
    case WriteFails(p, delivered, timedOut) =>
      var phase := s.parties[p].phase;
      var s' := Written(s, p, delivered, phase);
      if timedOut then StartKill(s', p, phase.child, Some(Timeout)) else FoundDead(s', p, phase.child, phase.attempt)
    case ReadLine(p) => AfterLine(s, p)
    case ReadFails(p) => FoundDead(s, p, s.parties[p].phase.child, s.parties[p].phase.attempt)
    case ReadTimesOut(p) => StartKill(s, p, s.parties[p].phase.child, Some(Timeout))
    case KillDone(p) =>
      var phase := s.parties[p].phase;
      var s' := WithChild(s, phase.child, s.children[phase.child].(alive := false));
      if phase.next.None? then Moved(s', p, Ensuring(1)) else Return(s', p, phase.next.value)
    case ArriveStop(p) => s.(parties := s.parties[p := Party("", Null, StopQueued, [])])
    case TakeForStop(p) =>
      if s.slot.None? then Moved(s, p, Stopped) else Moved(s, p, Stopping(s.slot.value)).(slot := None, lock := Some(p))
    case StopDone(p) =>
      var k := s.parties[p].phase.child;
      Moved(WithChild(s, k, s.children[k].(alive := false)), p, Stopped).(lock := None)
    case ChildTakes(k) =>
      var c := s.children[k];
      WithChild(s, k, c.(busy := Some(c.inbox[0]), inbox := c.inbox[1..]))
    case ChildEmits(k, line) => WithChild(s, k, s.children[k].(outbox := s.children[k].outbox + [line]))
    case ChildAnswers(k, result) =>
      var c := s.children[k];
      var reply := Answer(names, c.busy.value, result);
      WithChild(s, k, c.(busy := None, outbox := c.outbox + [Some(reply)], answers := c.answers[c.busy.value.id := reply]))
    case ChildDies(k) => WithChild(s, k, s.children[k].(alive := false))
  }

  /** `acts` can be performed one after the other from `s`, ending in `s'`. */
  ghost predicate Runs(names: set<string>, s: State, acts: seq<Action>, s': State)
    decreases |acts|
  {
    if acts == [] then s' == s
    else
      var n := |acts| - 1;
      exists mid :: Runs(names, s, acts[..n], mid) && Enabled(mid, acts[n]) && s' == Apply(names, mid, acts[n])
  }

  // ------------------------------------------------------------------------------------------
  // The invariant
  // ------------------------------------------------------------------------------------------

  predicate Holds(phase: Phase) {
    phase.Ensuring? || phase.Ready? || phase.Reading? || phase.Killing? || phase.Stopping?
  }

  ghost predicate IdsOk(nextId: nat, issued: seq<Request>) {
    nextId == |issued| + 1 && forall i | 0 <= i < |issued| :: issued[i].id == i + 1
  }

  ghost predicate Issued(issued: seq<Request>, r: Request) {
    1 <= r.id <= |issued| && issued[r.id - 1] == r
  }

  /** Requests are served in the order of their ids, each once. */
  ghost predicate PendingOk(issued: seq<Request>, inbox: seq<Request>, busy: Option<Request>, answers: map<nat, Json>) {
    && (forall i | 0 <= i < |inbox| :: Issued(issued, inbox[i]))
    && (forall i, j | 0 <= i < j < |inbox| :: inbox[i].id < inbox[j].id)
    && (busy.Some? ==> Issued(issued, busy.value) && forall i | 0 <= i < |inbox| :: busy.value.id < inbox[i].id)
    && (forall id | id in answers :: NotPending(inbox, busy, id))
  }

  ghost predicate NotPending(inbox: seq<Request>, busy: Option<Request>, id: nat) {
    (forall i | 0 <= i < |inbox| :: id < inbox[i].id) && (busy.Some? ==> id < busy.value.id)
  }

  ghost predicate IsAnswer(names: set<string>, r: Request, json: Json) {
    exists result :: json == Answer(names, r, result)
  }

  ghost predicate AnswersOk(names: set<string>, issued: seq<Request>, answers: map<nat, Json>) {
    forall id | id in answers :: 1 <= id <= |issued| && IsAnswer(names, issued[id - 1], answers[id])
  }

  ghost predicate OutboxOk(nextId: nat, outbox: seq<Line>) {
    forall i | 0 <= i < |outbox| && FrameId(outbox[i]).Some? :: FrameId(outbox[i]).value < nextId
  }

  /** Of the lines that carry the id a caller waits for, the first is the server's answer; before that
      is given there is none.  (Ids beyond 64 bits are never recognised.) */
  ghost predicate Awaited(outbox: seq<Line>, id: nat, answers: map<nat, Json>) {
    id < U64_LIMIT ==>
      if id in answers then exists j :: AnswerAt(outbox, id, answers, j)
      else forall i | 0 <= i < |outbox| :: FrameId(outbox[i]) != Some(id)
  }

  ghost predicate AnswerAt(outbox: seq<Line>, id: nat, answers: map<nat, Json>, j: int)
    requires id in answers
  {
    && 0 <= j < |outbox| && outbox[j] == Some(answers[id]) && FrameId(outbox[j]) == Some(id)
    && forall i | 0 <= i < j :: FrameId(outbox[i]) != Some(id)
  }

  ghost predicate ChildOk(names: set<string>, c: Child) {
    && IdsOk(c.nextId, c.issued)
    && PendingOk(c.issued, c.inbox, c.busy, c.answers)
    && AnswersOk(names, c.issued, c.answers)
    && OutboxOk(c.nextId, c.outbox)
  }

  /** Party `p` wrote its request to child `k` under `id`. */
  ghost predicate Wrote(children: seq<Child>, p: nat, name: string, params: Json, k: nat, id: nat) {
    k < |children| && Issued(children[k].issued, Request(p, id, name, params))
  }

  /** `result` is what child `k` answered to request `id`. */
  ghost predicate Answered(children: seq<Child>, k: nat, id: nat, result: CallResult) {
    && k < |children| && id in children[k].answers
    && match Judge(Some(children[k].answers[id]), id)
       case Value(value) => result == Ok(value)
       case Failure(code, message) => result == RpcError(code, message)
       case _ => false
  }

  /** At most two writes, the second to a later child and only when the first one is dead. */
  ghost predicate SentOk(children: seq<Child>, p: nat, name: string, params: Json, sent: seq<(nat, nat)>) {
    && |sent| <= 2
    && (forall j | 0 <= j < |sent| :: Wrote(children, p, name, params, sent[j].0, sent[j].1))
    && (|sent| == 2 ==> sent[0].0 < sent[1].0 && !children[sent[0].0].alive)
  }

  ghost predicate ResultOk(children: seq<Child>, sent: seq<(nat, nat)>, phase: Phase) {
    && (phase.Finished? && (phase.result.Ok? || phase.result.RpcError?) ==>
          sent != [] && Answered(children, sent[|sent| - 1].0, sent[|sent| - 1].1, phase.result))
    && (phase.Queued? ==> sent == [])
  }

  ghost predicate PartyOk(children: seq<Child>, p: nat, party: Party) {
    SentOk(children, p, party.name, party.params, party.sent) && ResultOk(children, party.sent, party.phase)
  }

  /** The first attempt's child is gone before a second attempt is made. */
  ghost predicate AttemptOk(children: seq<Child>, party: Party, attempt: nat) {
    && attempt <= 1 && |party.sent| == attempt
    && (attempt == 1 ==> party.sent[0].0 < |children| && !children[party.sent[0].0].alive)
  }

  ghost predicate HolderOk(s: State, party: Party) {
    match party.phase
    case Ensuring(attempt) => AttemptOk(s.children, party, attempt) && (attempt == 1 ==> s.slot.None?)
    case Ready(attempt, k) =>
      AttemptOk(s.children, party, attempt) && s.slot == Some(k) && (attempt == 1 ==> party.sent[0].0 < k)
    case Reading(attempt, k, id) =>
      && attempt <= 1 && |party.sent| == attempt + 1 && party.sent[attempt] == (k, id)
      && s.slot == Some(k) && k < |s.children| && 1 <= id && id + 1 == s.children[k].nextId
      && Awaited(s.children[k].outbox, id, s.children[k].answers)
    case Killing(k, next) =>
      && s.slot.None? && k < |s.children| && party.sent != [] && party.sent[|party.sent| - 1].0 == k
      && (next.None? ==> |party.sent| == 1) && (next.Some? ==> next.value.Timeout? || next.value.EarlyExit?)
    case Stopping(k) => s.slot.None? && k < |s.children|
    case _ => false
  }

  /** A child is at hand when it is in the slot or being killed by the lock holder. */
  ghost predicate AtHand(s: State, k: nat) {
    || s.slot == Some(k)
    || (s.lock.Some? && s.lock.value in s.parties && s.slot.None?
        && var phase := s.parties[s.lock.value].phase;
           (phase.Killing? && phase.child == k) || (phase.Stopping? && phase.child == k))
  }

  /** No living child is out of hand. */
  ghost predicate AllAtHand(s: State) {
    forall k: nat | k < |s.children| && s.children[k].alive :: AtHand(s, k)
  }

  ghost predicate ChildrenOk(names: set<string>, children: seq<Child>) {
    forall k | 0 <= k < |children| :: ChildOk(names, children[k])
  }

  ghost predicate PartiesOk(children: seq<Child>, parties: map<nat, Party>) {
    forall p | p in parties :: PartyOk(children, p, parties[p])
  }

  /** Only the lock holder is at work, and it is where it should be. */
  ghost predicate LockOk(s: State) {
    && (s.lock.Some? ==> s.lock.value in s.parties && HolderOk(s, s.parties[s.lock.value]))
    && (forall p | p in s.parties && Holds(s.parties[p].phase) :: s.lock == Some(p))
  }

  ghost predicate Inv(names: set<string>, s: State) {
    && (s.slot.Some? ==> s.slot.value < |s.children|)
    && LockOk(s)
    && PartiesOk(s.children, s.parties)
    && ChildrenOk(names, s.children)
    && AllAtHand(s)
  }
}
