/** What every run of the worker channel keeps (crates/orchestrator/src/worker_pool.rs:1-41,
    118-192, 217-246, 300-397, 428-463). */
module WorkerChannelLaws {
  import opened Options
  import opened Json
  import opened RpcServer
  import opened WorkerChannel

  // ------------------------------------------------------------------------------------------
  // Children only grow: what was issued or answered stays, and the dead stay dead
  // ------------------------------------------------------------------------------------------

  ghost predicate Grows(c: Child, c': Child) {
    && c.issued <= c'.issued
    && (forall id | id in c.answers :: id in c'.answers && c'.answers[id] == c.answers[id])
    && (c'.alive ==> c.alive)
  }

  ghost predicate AllGrow(children: seq<Child>, children': seq<Child>) {
    |children| <= |children'| && forall k | 0 <= k < |children| :: Grows(children[k], children'[k])
  }

  lemma {:induction false} SentStaysOk(children: seq<Child>, children': seq<Child>, p: nat, party: Party)
    requires SentOk(children, p, party.name, party.params, party.sent) && AllGrow(children, children')
    ensures SentOk(children', p, party.name, party.params, party.sent)
  {
    var sent := party.sent;
    forall j | 0 <= j < |sent| ensures Wrote(children', p, party.name, party.params, sent[j].0, sent[j].1) {
      assert Wrote(children, p, party.name, party.params, sent[j].0, sent[j].1);
      assert Grows(children[sent[j].0], children'[sent[j].0]);
    }
  }

  lemma {:induction false} PartyStaysOk(children: seq<Child>, children': seq<Child>, p: nat, party: Party)
    requires PartyOk(children, p, party) && AllGrow(children, children')
    ensures PartyOk(children', p, party)
  {
    SentStaysOk(children, children', p, party);
    if party.sent != [] {
      var (k, id) := party.sent[|party.sent| - 1];
      assert Wrote(children, p, party.name, party.params, k, id);
      assert Grows(children[k], children'[k]);
    }
  }

  /** Party `p` alone moves; the lock goes to it, stays with it or is dropped by it, or else it is
      somebody else's and nothing but `p`'s own record changes. */
  ghost predicate Moves(s: State, s': State, p: nat) {
    && p in s'.parties && s'.parties == s.parties[p := s'.parties[p]]
    && if s.lock.None? || s.lock == Some(p)
       then s'.lock == (if Holds(s'.parties[p].phase) then Some(p) else None)
       else s'.lock == s.lock && !Holds(s'.parties[p].phase) && s'.slot == s.slot && s'.children == s.children
  }

  lemma {:induction false} PartiesStayOk(s: State, s': State, p: nat)
    requires PartiesOk(s.children, s.parties) && AllGrow(s.children, s'.children)
    requires Moves(s, s', p) && PartyOk(s'.children, p, s'.parties[p])
    ensures PartiesOk(s'.children, s'.parties)
  {
    forall q | q in s'.parties ensures PartyOk(s'.children, q, s'.parties[q]) {
      if q != p { PartyStaysOk(s.children, s'.children, q, s.parties[q]); }
    }
  }

  lemma {:induction false} PartyStep(names: set<string>, s: State, s': State, p: nat)
    requires Inv(names, s) && Moves(s, s', p)
    requires AllGrow(s.children, s'.children) && ChildrenOk(names, s'.children)
    requires s'.lock == Some(p) ==> HolderOk(s', s'.parties[p])
    requires PartyOk(s'.children, p, s'.parties[p])
    requires s'.slot.Some? ==> s'.slot.value < |s'.children|
    requires AllAtHand(s')
    ensures Inv(names, s')
  {
    hide PartyOk;
    hide ChildrenOk;
    hide AllGrow;
    hide AllAtHand;
    PartiesStayOk(s, s', p);
    hide PartiesOk;
    forall q | q in s'.parties && Holds(s'.parties[q].phase) ensures s'.lock == Some(q) {
      if q != p { assert s.lock == Some(q); }
    }
  }

  lemma {:induction false} SameChildren(children: seq<Child>)
    ensures AllGrow(children, children)
  {
  }

  lemma {:induction false} OneChildChanges(names: set<string>, children: seq<Child>, k: nat, c: Child)
    requires k < |children| && Grows(children[k], c)
    requires ChildrenOk(names, children) && ChildOk(names, c)
    ensures AllGrow(children, children[k := c]) && ChildrenOk(names, children[k := c])
  {
  }

  /** A child taken from the slot is at hand while it is being killed, and nobody else is alive. */
  lemma {:induction false} StaysAtHand(s: State, s': State, p: nat)
    requires AllAtHand(s) && s.lock == Some(p)
    requires |s'.children| == |s.children|
    requires forall k: nat | k < |s.children| && s'.children[k].alive :: s.children[k].alive && (AtHand(s, k) ==> AtHand(s', k))
    ensures AllAtHand(s')
  {
  }

  // ------------------------------------------------------------------------------------------
  // Steps of the child
  // ------------------------------------------------------------------------------------------

  /** Whoever waits for the answer to the latest id goes on waiting for it. */
  ghost predicate KeepsAwaited(c: Child, c': Child) {
    forall id: nat | 1 <= id && id + 1 == c.nextId && Awaited(c.outbox, id, c.answers) :: Awaited(c'.outbox, id, c'.answers)
  }

  lemma {:induction false} HolderGoesOn(s: State, k: nat, c: Child)
    requires k < |s.children| && Grows(s.children[k], c) && c.nextId == s.children[k].nextId
    requires KeepsAwaited(s.children[k], c) && LockOk(s)
    ensures LockOk(WithChild(s, k, c))
  {
  }

  /** A step of a child that issues nothing. */
  lemma {:induction false} ChildStep(names: set<string>, s: State, k: nat, c: Child)
    requires Inv(names, s) && k < |s.children|
    requires KeepsAwaited(s.children[k], c)
    requires Grows(s.children[k], c) && c.nextId == s.children[k].nextId && ChildOk(names, c)
    ensures Inv(names, WithChild(s, k, c))
  {
    var s' := WithChild(s, k, c);
    HolderGoesOn(s, k, c);
    hide HolderOk;
    OneChildChanges(names, s.children, k, c);
    forall q | q in s'.parties ensures PartyOk(s'.children, q, s'.parties[q]) {
      PartyStaysOk(s.children, s'.children, q, s.parties[q]);
    }
    forall j: nat | j < |s'.children| && s'.children[j].alive ensures AtHand(s', j) {
      assert AtHand(s, j);
    }
  }

  lemma {:induction false} ChildTakesKeeps(names: set<string>, s: State, k: nat)
    requires Inv(names, s) && Enabled(s, ChildTakes(k))
    ensures Inv(names, Apply(names, s, ChildTakes(k)))
  {
    var c := s.children[k];
    TakeKeepsPending(c.issued, c.inbox, c.answers);
    ChildStep(names, s, k, c.(busy := Some(c.inbox[0]), inbox := c.inbox[1..]));
  }

  lemma {:induction false} TakeKeepsPending(issued: seq<Request>, inbox: seq<Request>, answers: map<nat, Json>)
    requires inbox != [] && PendingOk(issued, inbox, None, answers)
    ensures PendingOk(issued, inbox[1..], Some(inbox[0]), answers)
  {
    forall id | id in answers ensures NotPending(inbox[1..], Some(inbox[0]), id) {
      assert NotPending(inbox, None, id);
    }
  }

  lemma {:induction false} NoiseKeepsAwaited(c: Child, line: Line, id: nat)
    requires IsNoise(c, line) && 1 <= id && id + 1 == c.nextId && Awaited(c.outbox, id, c.answers)
    ensures Awaited(c.outbox + [line], id, c.answers)
  {
    if id < U64_LIMIT && id in c.answers {
      var j :| AnswerAt(c.outbox, id, c.answers, j);
      assert AnswerAt(c.outbox + [line], id, c.answers, j);
    }
  }

  lemma {:induction false} ChildEmitsKeeps(names: set<string>, s: State, k: nat, line: Line)
    requires Inv(names, s) && Enabled(s, ChildEmits(k, line))
    ensures Inv(names, Apply(names, s, ChildEmits(k, line)))
  {
    var c := s.children[k];
    assert ChildOk(names, c);
    forall id: nat | 1 <= id && id + 1 == c.nextId && Awaited(c.outbox, id, c.answers)
      ensures Awaited(c.outbox + [line], id, c.answers)
    {
      NoiseKeepsAwaited(c, line, id);
    }
    ChildStep(names, s, k, c.(outbox := c.outbox + [line]));
  }

  lemma {:induction false} ChildDiesKeeps(names: set<string>, s: State, k: nat)
    requires Inv(names, s) && Enabled(s, ChildDies(k))
    ensures Inv(names, Apply(names, s, ChildDies(k)))
  {
    ChildStep(names, s, k, s.children[k].(alive := false));
  }

  /** The child after it answered its current request. */
  function AfterAnswer(c: Child, reply: Json): Child
    requires c.busy.Some?
  {
    c.(busy := None, outbox := c.outbox + [Some(reply)], answers := c.answers[c.busy.value.id := reply])
  }

  lemma {:induction false} AnswerKeepsPending(issued: seq<Request>, inbox: seq<Request>, r: Request, answers: map<nat, Json>, reply: Json)
    requires PendingOk(issued, inbox, Some(r), answers)
    ensures PendingOk(issued, inbox, None, answers[r.id := reply])
    ensures r.id !in answers
  {
    forall id | id in answers[r.id := reply] ensures NotPending(inbox, None, id) {
      if id != r.id { assert NotPending(inbox, Some(r), id); }
    }
    assert r.id in answers ==> NotPending(inbox, Some(r), r.id);
  }

  lemma {:induction false} AnswerKeepsAwaited(c: Child, reply: Json, id: nat)
    requires c.busy.Some? && c.busy.value.id !in c.answers && reply.Get("id") == Some(Num(c.busy.value.id))
    requires Awaited(c.outbox, id, c.answers)
    ensures Awaited(AfterAnswer(c, reply).outbox, id, AfterAnswer(c, reply).answers)
  {
    var c' := AfterAnswer(c, reply);
    if id < U64_LIMIT && id in c'.answers {
      if id == c.busy.value.id {
        assert AnswerAt(c'.outbox, id, c'.answers, |c.outbox|);
      } else {
        var j :| AnswerAt(c.outbox, id, c.answers, j);
        assert AnswerAt(c'.outbox, id, c'.answers, j);
      }
    }
  }

  lemma {:induction false} AnswerOk(names: set<string>, c: Child, result: HandlerResult)
    requires ChildOk(names, c) && c.busy.Some?
    ensures var c' := AfterAnswer(c, Answer(names, c.busy.value, result));
            && ChildOk(names, c') && Grows(c, c') && c'.nextId == c.nextId
            && KeepsAwaited(c, c')
  {
    var r := c.busy.value;
    var reply := Answer(names, r, result);
    RequestIsAnswered(names, r, result);
    AnswerKeepsPending(c.issued, c.inbox, r, c.answers, reply);
    forall id: nat | id + 1 == c.nextId && Awaited(c.outbox, id, c.answers)
      ensures Awaited(AfterAnswer(c, reply).outbox, id, AfterAnswer(c, reply).answers)
    {
      AnswerKeepsAwaited(c, reply, id);
    }
    var answers' := c.answers[r.id := reply];
    forall id | id in answers' ensures 1 <= id <= |c.issued| && IsAnswer(names, c.issued[id - 1], answers'[id]) {
      if id == r.id { assert answers'[id] == Answer(names, r, result); }
    }
  }

  lemma {:induction false} ChildAnswersKeeps(names: set<string>, s: State, k: nat, result: HandlerResult)
    requires Inv(names, s) && Enabled(s, ChildAnswers(k, result))
    ensures Inv(names, Apply(names, s, ChildAnswers(k, result)))
  {
    var c := s.children[k];
    AnswerOk(names, c, result);
    ChildStep(names, s, k, AfterAnswer(c, Answer(names, c.busy.value, result)));
  }

  // ------------------------------------------------------------------------------------------
  // Steps of callers and stoppers
  // ------------------------------------------------------------------------------------------

  lemma {:induction false} SameChildrenAtHand(s: State, s': State)
    requires AllAtHand(s) && s'.children == s.children
    requires forall k: nat :: AtHand(s, k) ==> AtHand(s', k)
    ensures AllAtHand(s') && AllGrow(s.children, s'.children)
  {
    forall k: nat | k < |s'.children| && s'.children[k].alive ensures AtHand(s', k) {
      assert AtHand(s, k);
    }
  }

  lemma {:induction false} QueueingKeeps(names: set<string>, s: State, a: Action)
    requires Inv(names, s) && Enabled(s, a) && (a.Arrive? || a.GiveUp? || a.ArriveStop?)
    ensures Inv(names, Apply(names, s, a))
  {
    hide ChildOk;
    hide Awaited;
    var s' := Apply(names, s, a);
    SameChildrenAtHand(s, s');
    PartyStep(names, s, s', a.p);
  }

  lemma {:induction false} AcquireKeeps(names: set<string>, s: State, p: nat)
    requires Inv(names, s) && Enabled(s, Acquire(p))
    ensures Inv(names, Apply(names, s, Acquire(p)))
  {
    var s' := Apply(names, s, Acquire(p));
    SameChildrenAtHand(s, s');
    PartyStep(names, s, s', p);
  }

  lemma {:induction false} TakeForStopKeeps(names: set<string>, s: State, p: nat)
    requires Inv(names, s) && Enabled(s, TakeForStop(p))
    ensures Inv(names, Apply(names, s, TakeForStop(p)))
  {
    var s' := Apply(names, s, TakeForStop(p));
    SameChildrenAtHand(s, s');
    PartyStep(names, s, s', p);
  }

  lemma {:induction false} NewbornOk(names: set<string>, children: seq<Child>)
    requires ChildrenOk(names, children)
    ensures ChildrenOk(names, children + [NEWBORN]) && AllGrow(children, children + [NEWBORN])
  {
    assert ChildOk(names, NEWBORN);
  }

  lemma {:induction false} EnsureLiveKeeps(names: set<string>, s: State, p: nat, sawExit: bool, spawned: bool)
    requires Inv(names, s) && Enabled(s, EnsureLive(p, sawExit, spawned))
    ensures Inv(names, Apply(names, s, EnsureLive(p, sawExit, spawned)))
  {
    hide ChildOk;
    hide SentOk;
    var s' := AfterEnsure(s, p, sawExit, spawned);
    NewbornOk(names, s.children);
    SameChildren(s.children);
    assert s.lock == Some(p);
    forall k: nat | k < |s'.children| && s'.children[k].alive ensures AtHand(s', k) {
      if k < |s.children| {
        assert s'.children[k] == s.children[k] && AtHand(s, k);
      }
    }
    PartyStaysOk(s.children, s'.children, p, s.parties[p]);
    PartyStep(names, s, s', p);
  }

  lemma {:induction false} IssueKeepsPending(
      issued: seq<Request>, inbox: seq<Request>, busy: Option<Request>, answers: map<nat, Json>, r: Request)
    requires PendingOk(issued, inbox, busy, answers) && r.id == |issued| + 1
    requires forall id | id in answers :: id <= |issued|
    ensures PendingOk(issued + [r], inbox, busy, answers) && PendingOk(issued + [r], inbox + [r], busy, answers)
  {
    var issued', inbox' := issued + [r], inbox + [r];
    forall i | 0 <= i < |inbox'| ensures Issued(issued', inbox'[i]) && (i < |inbox| ==> inbox'[i].id < r.id) {
      if i < |inbox| { assert Issued(issued, inbox[i]); }
    }
    forall i | 0 <= i < |inbox| ensures Issued(issued', inbox[i]) { assert Issued(issued, inbox[i]); }
    forall id | id in answers ensures NotPending(inbox', busy, id) && NotPending(inbox, busy, id) {
      assert NotPending(inbox, busy, id);
    }
  }

  lemma {:induction false} IssueOk(names: set<string>, c: Child, p: nat, party: Party, delivered: bool)
    requires ChildOk(names, c)
    ensures var c' := Issue(c, p, party, delivered);
            && ChildOk(names, c') && Grows(c, c')
            && Issued(c'.issued, Request(p, c.nextId, party.name, party.params))
  {
    var r := Request(p, c.nextId, party.name, party.params);
    IssueKeepsPending(c.issued, c.inbox, c.busy, c.answers, r);
    assert OutboxOk(c.nextId + 1, c.outbox);
    assert AnswersOk(names, c.issued + [r], c.answers);
  }

  lemma {:induction false} OneMoreSent(children: seq<Child>, p: nat, party: Party, k: nat, id: nat)
    requires SentOk(children, p, party.name, party.params, party.sent) && Wrote(children, p, party.name, party.params, k, id)
    requires |party.sent| <= 1 && (|party.sent| == 1 ==> party.sent[0].0 < k && !children[party.sent[0].0].alive)
    ensures SentOk(children, p, party.name, party.params, party.sent + [(k, id)])
  {
    var sent' := party.sent + [(k, id)];
    forall j | 0 <= j < |sent'| ensures Wrote(children, p, party.name, party.params, sent'[j].0, sent'[j].1) {
      if j < |party.sent| { assert Wrote(children, p, party.name, party.params, party.sent[j].0, party.sent[j].1); }
    }
  }

  /** Writing uses a fresh id of a child this party has not written to before. */
  lemma {:induction false} WrittenOk(names: set<string>, s: State, p: nat, delivered: bool, phase: Phase)
    requires Inv(names, s) && CanWrite(s, p)
    requires !phase.Finished? && !phase.Queued?
    ensures var s' := Written(s, p, delivered, phase);
            && AllGrow(s.children, s'.children) && |s'.children| == |s.children|
            && ChildrenOk(names, s'.children)
            && (forall k | 0 <= k < |s'.children| :: s'.children[k].alive == s.children[k].alive)
            && PartyOk(s'.children, p, s'.parties[p])
  {
    var party := s.parties[p];
    var Ready(attempt, k) := party.phase;
    assert s.lock == Some(p) && HolderOk(s, party) && PartyOk(s.children, p, party);
    var c' := Issue(s.children[k], p, party, delivered);
    IssueOk(names, s.children[k], p, party, delivered);
    OneChildChanges(names, s.children, k, c');
    var children' := s.children[k := c'];
    SentStaysOk(s.children, children', p, party);
    OneMoreSent(children', p, party, k, s.children[k].nextId);
  }

  /** No line carries an id that was not used yet. */
  lemma {:induction false} NewIdIsAwaited(names: set<string>, c: Child)
    requires ChildOk(names, c)
    ensures Awaited(c.outbox, c.nextId, c.answers)
  {
    assert c.nextId !in c.answers;
  }

  lemma {:induction false} WriteOkKeeps(names: set<string>, s: State, p: nat)
    requires Inv(names, s) && Enabled(s, WriteOk(p))
    ensures Inv(names, Apply(names, s, WriteOk(p)))
  {
    var phase := s.parties[p].phase;
    assert s.lock == Some(p);
    var reading := Reading(phase.attempt, phase.child, s.children[phase.child].nextId);
    var s' := Written(s, p, true, reading);
    WrittenOk(names, s, p, true, reading);
    NewIdIsAwaited(names, s.children[phase.child]);
    StaysAtHand(s, s', p);
    PartyStep(names, s, s', p);
  }

  /** From any state of the holder with the child in the slot, the child can be taken and killed. */
  lemma {:induction false} StartKillKeeps(
      names: set<string>, s: State, mid: State, p: nat, k: nat, next: Option<CallResult>)
    requires Inv(names, s) && s.lock == Some(p) && s.slot == Some(k) && p in s.parties && k < |s.children|
    requires p in mid.parties && mid.parties == s.parties[p := mid.parties[p]] && mid.lock == s.lock && mid.slot == s.slot
    requires AllGrow(s.children, mid.children) && |mid.children| == |s.children| && ChildrenOk(names, mid.children)
    requires var party := mid.parties[p];
             && SentOk(mid.children, p, party.name, party.params, party.sent)
             && party.sent != [] && party.sent[|party.sent| - 1].0 == k
             && (next.None? ==> |party.sent| == 1) && (next.Some? ==> next.value.Timeout? || next.value.EarlyExit?)
    ensures Inv(names, StartKill(mid, p, k, next))
  {
    hide ChildrenOk;
    hide PartiesOk;
    hide AllGrow;
    hide AllAtHand;
    hide SentOk;
    var s' := StartKill(mid, p, k, next);
    TakenIsAtHand(s, s', p, k);
    assert PartyOk(s'.children, p, s'.parties[p]);
    PartyStep(names, s, s', p);
  }

  lemma {:induction false} TakenIsAtHand(s: State, s': State, p: nat, k: nat)
    requires AllAtHand(s) && s.slot == Some(k) && AllGrow(s.children, s'.children) && |s'.children| == |s.children|
    requires s'.lock == Some(p) && s'.slot.None? && p in s'.parties
    requires s'.parties[p].phase.Killing? && s'.parties[p].phase.child == k
    ensures AllAtHand(s')
  {
    forall j: nat | j < |s'.children| && s'.children[j].alive ensures AtHand(s', j) {
      assert Grows(s.children[j], s'.children[j]) && AtHand(s, j);
    }
  }

  lemma {:induction false} WriteFailsKeeps(names: set<string>, s: State, p: nat, delivered: bool, timedOut: bool)
    requires Inv(names, s) && Enabled(s, WriteFails(p, delivered, timedOut))
    ensures Inv(names, Apply(names, s, WriteFails(p, delivered, timedOut)))
  {
    var phase := s.parties[p].phase;
    assert s.lock == Some(p) && HolderOk(s, s.parties[p]);
    WrittenOk(names, s, p, delivered, phase);
    var mid := Written(s, p, delivered, phase);
    var next := if timedOut then Some(Timeout) else if phase.attempt == 0 then None else Some(EarlyExit);
    StartKillKeeps(names, s, mid, p, phase.child, next);
  }

  lemma {:induction false} ReadFailsKeeps(names: set<string>, s: State, p: nat, a: Action)
    requires Inv(names, s) && Enabled(s, a) && (a == ReadFails(p) || a == ReadTimesOut(p))
    ensures Inv(names, Apply(names, s, a))
  {
    var phase := s.parties[p].phase;
    assert s.lock == Some(p) && HolderOk(s, s.parties[p]) && PartyOk(s.children, p, s.parties[p]);
    SameChildren(s.children);
    var next := if a.ReadTimesOut? then Some(Timeout) else if phase.attempt == 0 then None else Some(EarlyExit);
    StartKillKeeps(names, s, s, p, phase.child, next);
  }

  lemma {:induction false} DeadChild(names: set<string>, s: State, k: nat)
    requires ChildrenOk(names, s.children) && k < |s.children|
    ensures var children' := s.children[k := s.children[k].(alive := false)];
            AllGrow(s.children, children') && ChildrenOk(names, children')
  {
    OneChildChanges(names, s.children, k, s.children[k].(alive := false));
  }

  /** Once the child in the holder's hands is dead, nobody is alive. */
  lemma {:induction false} KilledAtHand(s: State, s': State, p: nat, k: nat)
    requires AllAtHand(s) && s.lock == Some(p) && s.slot.None? && p in s.parties && k < |s.children|
    requires s.parties[p].phase.Killing? || s.parties[p].phase.Stopping?
    requires s.parties[p].phase.child == k
    requires s'.children == s.children[k := s.children[k].(alive := false)]
    ensures AllAtHand(s')
  {
    forall j: nat | j < |s'.children| ensures !s'.children[j].alive {
      assert s.children[j].alive ==> AtHand(s, j);
    }
  }

  /** The holder's child is dead and the holder moves on: to another attempt, to its result, or
      home after a stop. */
  lemma {:induction false} AfterKillKeeps(names: set<string>, s: State, s': State, p: nat, k: nat)
    requires Inv(names, s) && s.lock == Some(p) && s.slot.None? && p in s.parties && k < |s.children|
    requires s.parties[p].phase.Killing? || s.parties[p].phase.Stopping?
    requires s.parties[p].phase.child == k
    requires Moves(s, s', p) && s'.slot.None? && s'.children == s.children[k := s.children[k].(alive := false)]
    requires s'.parties[p].sent == s.parties[p].sent && s'.parties[p].name == s.parties[p].name
    requires s'.parties[p].params == s.parties[p].params
    requires ResultOk(s'.children, s'.parties[p].sent, s'.parties[p].phase)
    requires s'.lock == Some(p) ==> HolderOk(s', s'.parties[p])
    ensures Inv(names, s')
  {
    DeadChild(names, s, k);
    assert PartyOk(s.children, p, s.parties[p]);
    SentStaysOk(s.children, s'.children, p, s.parties[p]);
    KilledAtHand(s, s', p, k);
    PartyStep(names, s, s', p);
  }

  lemma {:induction false} KillDoneKeeps(names: set<string>, s: State, p: nat)
    requires Inv(names, s) && Enabled(s, KillDone(p))
    ensures Inv(names, Apply(names, s, KillDone(p)))
  {
    assert s.lock == Some(p) && HolderOk(s, s.parties[p]);
    var Killing(k, next) := s.parties[p].phase;
    var mid := WithChild(s, k, s.children[k].(alive := false));
    AfterKillKeeps(names, s, if next.None? then Moved(mid, p, Ensuring(1)) else Return(mid, p, next.value), p, k);
  }

  lemma {:induction false} StopDoneKeeps(names: set<string>, s: State, p: nat)
    requires Inv(names, s) && Enabled(s, StopDone(p))
    ensures Inv(names, Apply(names, s, StopDone(p)))
  {
    assert s.lock == Some(p) && HolderOk(s, s.parties[p]);
    var k := s.parties[p].phase.child;
    var mid := WithChild(s, k, s.children[k].(alive := false));
    AfterKillKeeps(names, s, Moved(mid, p, Stopped).(lock := None), p, k);
  }

  lemma {:induction false} LineReadOk(names: set<string>, c: Child, verdict: Verdict)
    requires ChildOk(names, c) && c.outbox != []
    ensures ChildOk(names, Consume(c, verdict)) && Grows(c, Consume(c, verdict)) && Consume(c, verdict).nextId == c.nextId
  {
    assert OutboxOk(c.nextId, c.outbox[1..]);
  }

  /** A line that is taken as the answer to the latest id is the server's answer to it. */
  lemma {:induction false} TakenIsAnswer(c: Child, id: nat)
    requires c.outbox != [] && Awaited(c.outbox, id, c.answers)
    requires var verdict := Judge(c.outbox[0], id); verdict.Value? || verdict.Failure? || verdict.Neither?
    ensures id in c.answers && c.outbox[0] == Some(c.answers[id])
  {
    assert FrameId(c.outbox[0]) == Some(id);
    var j :| AnswerAt(c.outbox, id, c.answers, j);
    assert j == 0;
  }

  /** A line that is skipped is not the one waited for. */
  lemma {:induction false} SkipKeepsAwaited(c: Child, id: nat)
    requires c.outbox != [] && Awaited(c.outbox, id, c.answers) && Judge(c.outbox[0], id).Skip?
    ensures Awaited(c.outbox[1..], id, c.answers)
  {
    if id < U64_LIMIT && id in c.answers {
      var j :| AnswerAt(c.outbox, id, c.answers, j);
      assert AnswerAt(c.outbox[1..], id, c.answers, j - 1);
    }
  }

  lemma {:induction false} ChildStaysAtHand(s: State, s': State)
    requires AllAtHand(s) && s.slot.Some? && s'.slot == s.slot && AllGrow(s.children, s'.children)
    requires |s'.children| == |s.children|
    ensures AllAtHand(s')
  {
    forall j: nat | j < |s'.children| && s'.children[j].alive ensures AtHand(s', j) {
      assert Grows(s.children[j], s'.children[j]) && AtHand(s, j);
    }
  }

  /** Returning a result while the child stays in its slot. */
  lemma {:induction false} ReturnKeeps(names: set<string>, s: State, mid: State, p: nat, result: CallResult)
    requires Inv(names, s) && s.lock == Some(p) && p in s.parties && s.slot.Some?
    requires mid.parties == s.parties && mid.lock == s.lock && mid.slot == s.slot
    requires AllGrow(s.children, mid.children) && |mid.children| == |s.children| && ChildrenOk(names, mid.children)
    requires ResultOk(mid.children, s.parties[p].sent, Finished(result))
    ensures Inv(names, Return(mid, p, result))
  {
    var s' := Return(mid, p, result);
    SentStaysOk(s.children, mid.children, p, s.parties[p]);
    ChildStaysAtHand(s, s');
    assert PartyOk(s'.children, p, s'.parties[p]);
    PartyStep(names, s, s', p);
  }

  lemma {:induction false} VerdictIsResult(children: seq<Child>, children': seq<Child>, sent: seq<(nat, nat)>, verdict: Verdict)
    requires sent != [] && AllGrow(children, children')
    requires verdict.Value? || verdict.Failure? ==>
               Answered(children, sent[|sent| - 1].0, sent[|sent| - 1].1, VerdictResult(verdict))
    ensures ResultOk(children', sent, Finished(VerdictResult(verdict)))
  {
    if verdict.Value? || verdict.Failure? {
      var k := sent[|sent| - 1].0;
      assert Grows(children[k], children'[k]);
    }
  }

  lemma {:induction false} TakeLineKeeps(names: set<string>, s: State, p: nat, k: nat, verdict: Verdict)
    requires Inv(names, s) && s.lock == Some(p) && p in s.parties && s.slot.Some?
    requires k < |s.children| && s.children[k].outbox != []
    requires var sent := s.parties[p].sent;
             && sent != []
             && (verdict.Value? || verdict.Failure? ==>
                   Answered(s.children, sent[|sent| - 1].0, sent[|sent| - 1].1, VerdictResult(verdict)))
    requires verdict.Skip? ==> KeepsAwaited(s.children[k], Consume(s.children[k], verdict))
    ensures Inv(names, TakeLine(s, p, k, verdict))
  {
    var c' := Consume(s.children[k], verdict);
    LineReadOk(names, s.children[k], verdict);
    if verdict.Skip? {
      ChildStep(names, s, k, c');
    } else {
      OneChildChanges(names, s.children, k, c');
      VerdictIsResult(s.children, s.children[k := c'], s.parties[p].sent, verdict);
      ReturnKeeps(names, s, WithChild(s, k, c'), p, VerdictResult(verdict));
    }
  }

  /** A line taken as the answer to the latest id is the server's answer to it. */
  lemma {:induction false} VerdictIsAnswer(children: seq<Child>, k: nat, id: nat)
    requires k < |children| && children[k].outbox != [] && Awaited(children[k].outbox, id, children[k].answers)
    ensures var verdict := Judge(children[k].outbox[0], id);
            verdict.Value? || verdict.Failure? ==> Answered(children, k, id, VerdictResult(verdict))
  {
    var c := children[k];
    var verdict := Judge(c.outbox[0], id);
    if verdict.Value? || verdict.Failure? { TakenIsAnswer(c, id); }
  }

  /** Where the reading lock holder stands. */
  lemma {:induction false} ReaderStands(names: set<string>, s: State, p: nat)
    requires Inv(names, s) && Enabled(s, ReadLine(p))
    ensures var Reading(attempt, k, id) := s.parties[p].phase;
            var sent := s.parties[p].sent;
            && s.lock == Some(p) && s.slot == Some(k)
            && sent != [] && sent[|sent| - 1] == (k, id)
            && id + 1 == s.children[k].nextId && Awaited(s.children[k].outbox, id, s.children[k].answers)
  {
    var party := s.parties[p];
    assert s.lock == Some(p) && HolderOk(s, party);
  }

  lemma {:induction false} ReadLineKeeps(names: set<string>, s: State, p: nat)
    requires Inv(names, s) && Enabled(s, ReadLine(p))
    ensures Inv(names, AfterLine(s, p))
  {
    ReaderStands(names, s, p);
    var Reading(attempt, k, id) := s.parties[p].phase;
    VerdictIsAnswer(s.children, k, id);
    if Judge(s.children[k].outbox[0], id).Skip? { SkipKeepsAwaited(s.children[k], id); }
    TakeLineKeeps(names, s, p, k, Judge(s.children[k].outbox[0], id));
  }

  // ------------------------------------------------------------------------------------------
  // Every run
  // ------------------------------------------------------------------------------------------

  lemma {:induction false} StepKeepsInv(names: set<string>, s: State, a: Action)
    requires Inv(names, s) && Enabled(s, a)
    ensures Inv(names, Apply(names, s, a))
  {
    match a {
      case Arrive(p, _, _) => QueueingKeeps(names, s, a);
      case GiveUp(p) => QueueingKeeps(names, s, a);
      case ArriveStop(p) => QueueingKeeps(names, s, a);
      case Acquire(p) => AcquireKeeps(names, s, p);
      case EnsureLive(p, sawExit, spawned) => EnsureLiveKeeps(names, s, p, sawExit, spawned);
      case WriteOk(p) => WriteOkKeeps(names, s, p);
      case WriteFails(p, delivered, timedOut) => WriteFailsKeeps(names, s, p, delivered, timedOut);
      case ReadLine(p) => ReadLineKeeps(names, s, p);
      case ReadFails(p) => ReadFailsKeeps(names, s, p, a);
      case ReadTimesOut(p) => ReadFailsKeeps(names, s, p, a);
      case KillDone(p) => KillDoneKeeps(names, s, p);
      case TakeForStop(p) => TakeForStopKeeps(names, s, p);
      case StopDone(p) => StopDoneKeeps(names, s, p);
      case ChildTakes(k) => ChildTakesKeeps(names, s, k);
      case ChildEmits(k, line) => ChildEmitsKeeps(names, s, k, line);
      case ChildAnswers(k, result) => ChildAnswersKeeps(names, s, k, result);
      case ChildDies(k) => ChildDiesKeeps(names, s, k);
    }
  }

  lemma {:induction false} RunKeepsInv(names: set<string>, s: State, acts: seq<Action>, s': State)
    requires Inv(names, s) && Runs(names, s, acts, s')
    ensures Inv(names, s')
    decreases |acts|
  {
    if acts != [] {
      var n := |acts| - 1;
      var mid :| Runs(names, s, acts[..n], mid) && Enabled(mid, acts[n]) && s' == Apply(names, mid, acts[n]);
      RunKeepsInv(names, s, acts[..n], mid);
      StepKeepsInv(names, mid, acts[n]);
    }
  }

  lemma {:induction false} StartIsOk(names: set<string>)
    ensures Inv(names, START)
  {
  }

  // ------------------------------------------------------------------------------------------
  // Replies belong to the request they are taken for
  // ------------------------------------------------------------------------------------------

  /** What the caller of request `r` is to get when the handler, if it is reached, ends with
      `result`. */
  function Served(names: set<string>, r: Request, result: HandlerResult): CallResult {
    var params := ParamsOf(RequestJson(r));
    if !params.Obj? then RpcError(INVALID_PARAMS, "invalid params: must be an object")
    else if r.name !in names then RpcError(METHOD_NOT_FOUND, "method not found: " + r.name)
    else match result
      case Returned(value) => Ok(value)
      case Raised(code, message, _) => RpcError(OrElse(Num(code).AsI64(), -1), message)
      case Crashed(text) => RpcError(INTERNAL_ERROR, "handler raised " + text)
  }

  lemma {:induction false} JudgeOfError(id: nat, code: int, message: string)
    requires id < U64_LIMIT
    ensures Judge(Some(ErrorResponse(Num(id), code, message)), id) == Failure(OrElse(Num(code).AsI64(), -1), message)
  {
    var reply := ErrorResponse(Num(id), code, message);
    assert reply.GetU64("id") == Some(id) && reply.Get("error") == Some(ErrorBody(code, message));
  }

  lemma {:induction false} JudgeOfRaised(id: nat, code: int, message: string, data: Json)
    requires id < U64_LIMIT
    ensures Judge(Some(RaisedResponse(Num(id), code, message, data)), id) == Failure(OrElse(Num(code).AsI64(), -1), message)
  {
    var reply := RaisedResponse(Num(id), code, message, data);
    assert reply.GetU64("id") == Some(id) && reply.Get("error").Some?;
  }

  lemma {:induction false} JudgeOfValue(id: nat, value: Json)
    requires id < U64_LIMIT
    ensures Judge(Some(Obj(map["jsonrpc" := Str("2.0"), "id" := Num(id), "result" := value])), id) == Value(value)
  {
    var reply := Obj(map["jsonrpc" := Str("2.0"), "id" := Num(id), "result" := value]);
    assert reply.GetU64("id") == Some(id) && reply.Get("error").None? && reply.Get("result") == Some(value);
  }

  /** The caller reads off the server's answer exactly what the server meant. */
  lemma {:induction false} JudgeOfAnswer(names: set<string>, r: Request, result: HandlerResult)
    requires r.id < U64_LIMIT
    ensures var verdict := Judge(Some(Answer(names, r, result)), r.id);
            (verdict.Value? || verdict.Failure?) && VerdictResult(verdict) == Served(names, r, result)
  {
    var json := RequestJson(r);
    assert json.Get("jsonrpc") == Some(Str("2.0")) && json.GetStr("method") == Some(r.name) && json.Get("id") == Some(Num(r.id));
    if !ParamsOf(json).Obj? {
      JudgeOfError(r.id, INVALID_PARAMS, "invalid params: must be an object");
    } else if r.name !in names {
      JudgeOfError(r.id, METHOD_NOT_FOUND, "method not found: " + r.name);
    } else {
      match result
      case Returned(value) => JudgeOfValue(r.id, value);
      case Raised(code, message, data) => JudgeOfRaised(r.id, code, message, data);
      case Crashed(text) => JudgeOfError(r.id, INTERNAL_ERROR, "handler raised " + text);
    }
  }

  /** Step `n` of the run is the one in which child `k`, at work on request `r`, answers it with what
      the handler came to. */
  ghost predicate AnsweredAt(names: set<string>, acts: seq<Action>, n: nat, k: nat, r: Request, result: HandlerResult) {
    && n < |acts| && acts[n] == ChildAnswers(k, result)
    && exists mid :: Runs(names, START, acts[..n], mid) && IsAlive(mid, k) && mid.children[k].busy == Some(r)
  }

  /** Child `k` holds the answer to request `r` that `result` leads to. */
  ghost predicate Recorded(names: set<string>, children: seq<Child>, k: nat, r: Request, result: HandlerResult) {
    && k < |children| && Issued(children[k].issued, r)
    && r.id in children[k].answers && children[k].answers[r.id] == Answer(names, r, result)
  }

  /** A step that gives no answer under `id` leaves what child `k` answered under it. */
  lemma {:induction false} OtherStepsGiveNoAnswer(names: set<string>, s: State, a: Action, s': State, k: nat, id: nat)
    requires Enabled(s, a) && s' == Apply(names, s, a)
    requires k < |s'.children| && id in s'.children[k].answers
    requires !(a.ChildAnswers? && a.k == k && s.children[k].busy.value.id == id)
    ensures k < |s.children| && id in s.children[k].answers && s'.children[k].answers[id] == s.children[k].answers[id]
    ensures s.children[k].issued <= s'.children[k].issued
  {
    if a.ReadLine? {
      var verdict := Judge(s.children[s.parties[a.p].phase.child].outbox[0], s.parties[a.p].phase.id);
      assert s' == TakeLine(s, a.p, s.parties[a.p].phase.child, verdict);
    }
  }

  lemma {:induction false} AnswerIsRecorded(names: set<string>, s: State, k: nat, result: HandlerResult)
    requires Inv(names, s) && Enabled(s, ChildAnswers(k, result))
    ensures Recorded(names, Apply(names, s, ChildAnswers(k, result)).children, k, s.children[k].busy.value, result)
  {
    assert ChildOk(names, s.children[k]);
  }

  lemma {:induction false} RecordedStays(
      names: set<string>, children: seq<Child>, children': seq<Child>, k: nat, r: Request, result: HandlerResult)
    requires Recorded(names, children, k, r, result) && k < |children'|
    requires r.id in children'[k].answers && children'[k].answers[r.id] == children[k].answers[r.id]
    requires children[k].issued <= children'[k].issued
    ensures Recorded(names, children', k, r, result)
  {
  }

  lemma {:induction false} AnsweredBefore(names: set<string>, acts: seq<Action>, n: nat, k: nat, r: Request, result: HandlerResult)
    requires acts != [] && AnsweredAt(names, acts[..|acts| - 1], n, k, r, result)
    ensures AnsweredAt(names, acts, n, k, r, result)
  {
    assert acts[..|acts| - 1][..n] == acts[..n];
  }

  /** Every answer a child holds goes back to a step of the run in which the child gave it. */
  lemma {:induction false} OriginOfAnswer(names: set<string>, acts: seq<Action>, s: State, k: nat, id: nat)
      returns (n: nat, r: Request, result: HandlerResult)
    requires Runs(names, START, acts, s) && k < |s.children| && id in s.children[k].answers
    ensures r.id == id && AnsweredAt(names, acts, n, k, r, result) && Recorded(names, s.children, k, r, result)
    decreases |acts|
  {
    hide Inv;
    hide Recorded;
    var m := |acts| - 1;
    var mid :| Runs(names, START, acts[..m], mid) && Enabled(mid, acts[m]) && s == Apply(names, mid, acts[m]);
    var a := acts[m];
    if a.ChildAnswers? && a.k == k && mid.children[k].busy.value.id == id {
      StartIsOk(names);
      RunKeepsInv(names, START, acts[..m], mid);
      AnswerIsRecorded(names, mid, k, a.result);
      n, r, result := m, mid.children[k].busy.value, a.result;
    } else {
      OtherStepsGiveNoAnswer(names, mid, a, s, k, id);
      n, r, result := OriginOfAnswer(names, acts[..m], mid, k, id);
      AnsweredBefore(names, acts, n, k, r, result);
      RecordedStays(names, mid.children, s.children, k, r, result);
    }
  }

  /** Party `p` got what the server made of its own request, the one it wrote last: under `id` to child
      `k`, which holds the answer that the handler's `result` leads to. */
  ghost predicate Correlated(
      names: set<string>, children: seq<Child>, p: nat, party: Party, k: nat, id: nat, result: HandlerResult)
  {
    var r := Request(p, id, party.name, party.params);
    && party.sent != [] && party.sent[|party.sent| - 1] == (k, id)
    && Recorded(names, children, k, r, result)
    && party.phase == Finished(Served(names, r, result))
  }

  lemma {:induction false} AnsweredIsVerdict(children: seq<Child>, k: nat, id: nat, result: CallResult)
    requires Answered(children, k, id, result)
    ensures VerdictResult(Judge(Some(children[k].answers[id]), id)) == result && id < U64_LIMIT
  {
    assert children[k].answers[id].GetU64("id") == Some(id);
  }

  lemma {:induction false} LastWrite(children: seq<Child>, p: nat, party: Party) returns (k: nat, id: nat)
    requires PartyOk(children, p, party) && party.phase.Finished?
    requires party.phase.result.Ok? || party.phase.result.RpcError?
    ensures party.sent != [] && party.sent[|party.sent| - 1] == (k, id)
    ensures Wrote(children, p, party.name, party.params, k, id) && Answered(children, k, id, party.phase.result)
  {
    k, id := party.sent[|party.sent| - 1].0, party.sent[|party.sent| - 1].1;
    assert Wrote(children, p, party.name, party.params, k, id);
  }

  lemma {:induction false} SameRequest(children: seq<Child>, k: nat, r: Request, r': Request)
    requires k < |children| && Issued(children[k].issued, r) && Issued(children[k].issued, r') && r.id == r'.id
    ensures r == r'
  {
  }

  lemma {:induction false} RecordedIsCorrelated(
      names: set<string>, children: seq<Child>, p: nat, party: Party, k: nat, id: nat, result: HandlerResult)
    requires party.sent != [] && party.sent[|party.sent| - 1] == (k, id) && party.phase.Finished?
    requires Answered(children, k, id, party.phase.result)
    requires Recorded(names, children, k, Request(p, id, party.name, party.params), result)
    ensures Correlated(names, children, p, party, k, id, result)
  {
    var r := Request(p, id, party.name, party.params);
    AnsweredIsVerdict(children, k, id, party.phase.result);
    JudgeOfAnswer(names, r, result);
    hide Served;
    hide Judge;
    hide Answer;
  }

  /** In every run, a value or an RPC error that a call returns is what the server made of that very
      call's request: the party wrote it last, to child `k` under `id`; in step `n` the child, at work
      on this request, answered it with the handler's `result`; the child holds that answer, and the
      caller got what it says. */
  lemma {:induction false} ReplyCorrelation(names: set<string>, acts: seq<Action>, s: State, p: nat)
      returns (k: nat, id: nat, n: nat, result: HandlerResult)
    requires Runs(names, START, acts, s)
    requires p in s.parties && s.parties[p].phase.Finished?
    requires s.parties[p].phase.result.Ok? || s.parties[p].phase.result.RpcError?
    ensures Correlated(names, s.children, p, s.parties[p], k, id, result)
    ensures AnsweredAt(names, acts, n, k, Request(p, id, s.parties[p].name, s.parties[p].params), result)
  {
    hide Correlated;
    hide AnsweredAt;
    hide Runs;
    StartIsOk(names);
    RunKeepsInv(names, START, acts, s);
    k, id := LastWrite(s.children, p, s.parties[p]);
    var r;
    n, r, result := OriginOfAnswer(names, acts, s, k, id);
    SameRequest(s.children, k, r, Request(p, id, s.parties[p].name, s.parties[p].params));
    RecordedIsCorrelated(names, s.children, p, s.parties[p], k, id, result);
  }

  // ------------------------------------------------------------------------------------------
  // One child at a time, one party at a time
  // ------------------------------------------------------------------------------------------

  /** At every moment at most one child is alive, and it is in the slot or in the hands of the lock
      holder who is killing it; at most one party is at work, and it holds the lock. */
  lemma {:induction false} OneChildOneHolder(names: set<string>, acts: seq<Action>, s: State)
    requires Runs(names, START, acts, s)
    ensures forall j: nat, k: nat | IsAlive(s, j) && IsAlive(s, k) :: j == k
    ensures forall k: nat | IsAlive(s, k) :: AtHand(s, k)
    ensures s.lock.None? ==> forall k: nat | IsAlive(s, k) :: s.slot == Some(k)
    ensures forall p | p in s.parties && Holds(s.parties[p].phase) :: s.lock == Some(p)
  {
    StartIsOk(names);
    RunKeepsInv(names, START, acts, s);
    forall j: nat, k: nat | IsAlive(s, j) && IsAlive(s, k) ensures j == k {
      assert AtHand(s, j) && AtHand(s, k);
    }
  }

  predicate UsesPipes(a: Action) {
    a.WriteOk? || a.WriteFails? || a.ReadLine? || a.ReadFails? || a.ReadTimesOut?
  }

  /** Whoever writes to a child or takes a line from it holds the lock and does so on the child in
      the slot. */
  lemma {:induction false} PipeUserHoldsLock(names: set<string>, s: State, a: Action)
    requires Inv(names, s) && Enabled(s, a) && UsesPipes(a)
    ensures s.lock == Some(a.p) && s.slot == Some(s.parties[a.p].phase.child)
  {
    assert s.lock == Some(a.p) && HolderOk(s, s.parties[a.p]);
  }

  /** No other action issues a request to a child or takes a line from it. */
  lemma {:induction false} OthersLeavePipes(names: set<string>, s: State, a: Action, s': State, k: nat)
    requires Enabled(s, a) && s' == Apply(names, s, a) && k < |s.children|
    requires !UsesPipes(a) || k != s.parties[a.p].phase.child
    ensures k < |s'.children|
    ensures s'.children[k].issued == s.children[k].issued && s.children[k].outbox <= s'.children[k].outbox
  {
    if a.ReadLine? {
      var verdict := Judge(s.children[s.parties[a.p].phase.child].outbox[0], s.parties[a.p].phase.id);
      assert s' == TakeLine(s, a.p, s.parties[a.p].phase.child, verdict);
    }
  }

  // ------------------------------------------------------------------------------------------
  // Retries
  // ------------------------------------------------------------------------------------------

  /** A call writes at most twice, never twice to the same child, and a second time only when the
      first child is dead. */
  lemma {:induction false} AtMostOneRetry(names: set<string>, acts: seq<Action>, s: State, p: nat)
    requires Runs(names, START, acts, s) && p in s.parties
    ensures var sent := s.parties[p].sent;
            && |sent| <= 2
            && (|sent| == 2 ==> sent[0].0 != sent[1].0 && !IsAlive(s, sent[0].0))
  {
    StartIsOk(names);
    RunKeepsInv(names, START, acts, s);
    assert PartyOk(s.children, p, s.parties[p]);
  }

  /** Once its result is decided a call never writes again and ends with that result. */
  ghost predicate Decided(party: Party, result: CallResult) {
    party.phase == Finished(result) || (party.phase.Killing? && party.phase.next == Some(result))
  }

  lemma {:induction false} DecidedStays(names: set<string>, s: State, acts: seq<Action>, s': State, p: nat, result: CallResult)
    requires Inv(names, s) && Runs(names, s, acts, s')
    requires p in s.parties && Decided(s.parties[p], result)
    ensures p in s'.parties && Decided(s'.parties[p], result) && s'.parties[p].sent == s.parties[p].sent
    decreases |acts|
  {
    if acts != [] {
      var n := |acts| - 1;
      var mid :| Runs(names, s, acts[..n], mid) && Enabled(mid, acts[n]) && s' == Apply(names, mid, acts[n]);
      DecidedStays(names, s, acts[..n], mid, p, result);
      DecidedStep(names, mid, acts[n], p, result);
    }
  }

  lemma {:induction false} DecidedStep(names: set<string>, s: State, a: Action, p: nat, result: CallResult)
    requires Enabled(s, a) && p in s.parties && Decided(s.parties[p], result)
    ensures var s' := Apply(names, s, a);
            p in s'.parties && Decided(s'.parties[p], result) && s'.parties[p].sent == s.parties[p].sent
  {
    if a.ReadLine? {
      var verdict := Judge(s.children[s.parties[a.p].phase.child].outbox[0], s.parties[a.p].phase.id);
      assert Apply(names, s, a) == TakeLine(s, a.p, s.parties[a.p].phase.child, verdict);
    }
  }

  /** When a call returns: giving up in the queue changes neither slot nor child; any other return
      leaves the slot empty exactly after a timeout in flight, a second death or a failed spawn. */
  lemma {:induction false} SlotAfterReturn(names: set<string>, s: State, a: Action, s': State, p: nat, result: CallResult)
    requires Inv(names, s) && Enabled(s, a) && s' == Apply(names, s, a)
    requires p in s.parties && !s.parties[p].phase.Finished?
    requires p in s'.parties && s'.parties[p].phase == Finished(result)
    ensures if result.QueueTimeout? then s'.slot == s.slot && s'.children == s.children && s'.lock == s.lock
            else (s'.slot.None? <==> result.Timeout? || result.EarlyExit? || result.SpawnError?) && s'.lock.None?
  {
    hide PartiesOk;
    hide ChildrenOk;
    hide AllAtHand;
    match a {
      case GiveUp(q) =>
      case EnsureLive(q, _, _) =>
      case ReadLine(q) =>
        assert s.lock == Some(q) && HolderOk(s, s.parties[q]);
        SlotAfterLine(s, q, p, Judge(s.children[s.parties[q].phase.child].outbox[0], s.parties[q].phase.id), result);
      case KillDone(q) =>
        assert s.lock == Some(q) && HolderOk(s, s.parties[q]);
      case _ =>
        NoOtherReturns(names, s, a, s', p);
    }
  }

  lemma {:induction false} NoOtherReturns(names: set<string>, s: State, a: Action, s': State, p: nat)
    requires Enabled(s, a) && s' == Apply(names, s, a)
    requires !a.GiveUp? && !a.EnsureLive? && !a.ReadLine? && !a.KillDone?
    requires p in s.parties && !s.parties[p].phase.Finished?
    ensures p in s'.parties && !s'.parties[p].phase.Finished?
  {
  }

  lemma {:induction false} SlotAfterLine(s: State, q: nat, p: nat, verdict: Verdict, result: CallResult)
    requires q in s.parties && s.parties[q].phase.Reading? && s.parties[q].phase.child < |s.children|
    requires s.children[s.parties[q].phase.child].outbox != [] && s.slot.Some?
    requires p in s.parties && !s.parties[p].phase.Finished?
    requires TakeLine(s, q, s.parties[q].phase.child, verdict).parties[p].phase == Finished(result)
    ensures var s' := TakeLine(s, q, s.parties[q].phase.child, verdict);
            s'.slot.Some? && s'.lock.None? && (result.Ok? || result.RpcError? || result.Malformed?)
  {
  }

  // ------------------------------------------------------------------------------------------
  // The pool: one channel per module
  // ------------------------------------------------------------------------------------------

  type Pool = map<string, State>

  /** A module without a record gets a fresh one on first use. */
  function WorkerFor(pool: Pool, m: string): State {
    if m in pool then pool[m] else START
  }

  ghost predicate PoolRuns(names: string -> set<string>, acts: seq<(string, Action)>, pool: Pool)
    decreases |acts|
  {
    if acts == [] then pool == map[]
    else
      var n := |acts| - 1;
      var (m, a) := acts[n];
      exists before: Pool :: PoolRuns(names, acts[..n], before) && Enabled(WorkerFor(before, m), a)
                             && pool == before[m := Apply(names(m), WorkerFor(before, m), a)]
  }

  function ActsOf(acts: seq<(string, Action)>, m: string): seq<Action>
    decreases |acts|
  {
    if acts == [] then []
    else
      var n := |acts| - 1;
      ActsOf(acts[..n], m) + if acts[n].0 == m then [acts[n].1] else []
  }

  /** In a run of the pool every module sees a run of its own, so all of the above holds of each
      module: at most one living child per module, replies correlated, and so on. */
  lemma {:induction false} PoolRunsPerModule(names: string -> set<string>, acts: seq<(string, Action)>, pool: Pool, m: string)
    requires PoolRuns(names, acts, pool)
    ensures Runs(names(m), START, ActsOf(acts, m), WorkerFor(pool, m))
    decreases |acts|
  {
    if acts != [] {
      var n := |acts| - 1;
      var (m', a) := acts[n];
      var before: Pool :| PoolRuns(names, acts[..n], before) && Enabled(WorkerFor(before, m'), a)
                          && pool == before[m' := Apply(names(m'), WorkerFor(before, m'), a)];
      PoolRunsPerModule(names, acts[..n], before, m);
      if m == m' {
        OneMoreAct(names(m), START, ActsOf(acts[..n], m), WorkerFor(before, m), a);
      } else {
        assert ActsOf(acts[..n], m) + [] == ActsOf(acts[..n], m);
      }
    }
  }

  lemma {:induction false} OneMoreAct(names: set<string>, s: State, acts: seq<Action>, mid: State, a: Action)
    requires Runs(names, s, acts, mid) && Enabled(mid, a)
    ensures Runs(names, s, acts + [a], Apply(names, mid, a))
  {
    assert (acts + [a])[..|acts|] == acts;
  }
}
