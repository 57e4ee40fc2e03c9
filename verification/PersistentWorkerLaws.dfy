/** What a pooled call returns, told from what its child does
    (crates/orchestrator/src/worker_pool.rs:118-170, 300-397). */
module PersistentWorkerLaws {
  import opened Options
  import opened Json
  import opened RpcServer
  import opened WorkerChannel
  import opened WorkerChannelLaws
  import opened WorkerAnswers
  import opened PersistentWorker

  /** Under this schedule the call of `p` ends with this result. */
  ghost predicate EndsWith(names: set<string>, s: State, p: nat, schedule: seq<Moment>, result: CallResult) {
    && Calling(names, s, p)
    && var s' := Play(names, s, p, schedule); p in s'.parties && s'.parties[p].phase == Finished(result)
  }

  lemma {:induction false} OneWait(names: set<string>, s: State, p: nat, schedule: seq<Moment>, s': State, result: CallResult)
    requires Calling(names, s, p) && !s.parties[p].phase.Finished?
    requires var m := Next(schedule);
             var mid := Meanwhile(names, s, p, m.meanwhile);
             Calling(names, mid, p) && s' == Act(names, mid, p, m)
    requires EndsWith(names, s', p, Rest(schedule), result)
    ensures EndsWith(names, s, p, schedule, result)
  {
    hide Inv;
    WaitKeeps(names, s, p, schedule);
  }

  lemma {:induction false} AtEnd(names: set<string>, s: State, p: nat, schedule: seq<Moment>, result: CallResult)
    requires Calling(names, s, p) && s.parties[p].phase == Finished(result)
    ensures EndsWith(names, s, p, schedule, result)
  {
  }

  // ------------------------------------------------------------------------------------------
  // Waiting for the answer
  // ------------------------------------------------------------------------------------------

  /** While `p` reads from child `k`, lines are only added at the end. */
  lemma {:induction false} MeanwhileAddsLines(names: set<string>, s: State, p: nat, acts: seq<Action>, k: nat)
    requires Calling(names, s, p) && s.parties[p].phase.Reading? && s.parties[p].phase.child == k && k < |s.children|
    ensures var s' := Meanwhile(names, s, p, acts); k < |s'.children| && s.children[k].outbox <= s'.children[k].outbox
    decreases |acts|
  {
    if acts != [] {
      var a := acts[0];
      if Enabled(s, a) && !IsBy(a, p) {
        assert s.lock == Some(p);
        if UsesPipes(a) { PipeUserHoldsLock(names, s, a); }
        OthersLeavePipes(names, s, a, Apply(names, s, a), k);
        StepKeepsInv(names, s, a);
        OthersLeaveParty(names, s, a, p);
        hide Inv;
        MeanwhileAddsLines(names, Apply(names, s, a), p, acts[1..], k);
      } else {
        MeanwhileAddsLines(names, s, p, acts[1..], k);
      }
    }
  }

  lemma {:induction false} ReaderHasChild(names: set<string>, s: State, p: nat, attempt: nat, k: nat, id: nat)
    requires Calling(names, s, p) && s.parties[p].phase == Reading(attempt, k, id)
    ensures k < |s.children|
  {
    assert HolderOk(s, s.parties[p]);
  }

  /** One wait takes one line, the oldest. */
  lemma {:induction false} WaitTakesOneLine(
      names: set<string>, s: State, p: nat, m: Moment, attempt: nat, k: nat, id: nat, mid: State)
    requires Calling(names, s, p) && s.parties[p].phase == Reading(attempt, k, id) && m.outcome.Succeeds?
    requires k < |s.children| && s.children[k].outbox != [] && mid == Meanwhile(names, s, p, m.meanwhile)
    ensures Calling(names, mid, p) && mid.parties[p] == s.parties[p]
    ensures k < |mid.children| && s.children[k].outbox <= mid.children[k].outbox
    ensures Calling(names, Act(names, mid, p, m), p)
    ensures Act(names, mid, p, m) == TakeLine(mid, p, k, Judge(s.children[k].outbox[0], id))
  {
    hide Judge;
    MeanwhileAddsLines(names, s, p, m.meanwhile, k);
    hide Inv;
    MeanwhileKeeps(names, s, p, m.meanwhile);
    ActKeeps(names, mid, p, m);
    ActOnReading(names, mid, p, m, attempt, k, id);
  }

  /** A waiting caller gets what the first frame with its id says, whatever lines of JSON lie before it
      and whatever else goes on, if it is given the time to take these lines. */
  lemma {:induction false} ReaderIsAnswered(
      names: set<string>, s: State, p: nat, attempt: nat, k: nat, id: nat, schedule: seq<Moment>, j: nat, result: CallResult)
    requires Calling(names, s, p) && s.parties[p].phase == Reading(attempt, k, id)
    requires k < |s.children| && j < |s.children[k].outbox|
    requires forall i | 0 <= i < j :: IsPassedOver(s.children[k].outbox[i], id)
    requires var line := s.children[k].outbox[j];
             line.Some? && Carries(line.value, id) && Says(line.value, result)
    requires j < |schedule| && forall i | 0 <= i <= j :: schedule[i].outcome.Succeeds?
    ensures EndsWith(names, s, p, schedule, result)
    decreases j
  {
    hide Inv;
    hide Carries;
    hide Says;
    var m := Next(schedule);
    var mid := Meanwhile(names, s, p, m.meanwhile);
    var line := s.children[k].outbox[0];
    WaitTakesOneLine(names, s, p, m, attempt, k, id, mid);
    var s' := TakeLine(mid, p, k, Judge(line, id));
    if j == 0 {
      CarriedIsTaken(line.value, id, result);
      AtEnd(names, s', p, Rest(schedule), result);
    } else {
      assert IsPassedOver(line, id);
      PassedOverIsSkipped(line, id);
      LinesMoveUp(s.children[k].outbox, mid.children[k].outbox, j);
      ReaderIsAnswered(names, s', p, attempt, k, id, Rest(schedule), j - 1, result);
    }
    OneWait(names, s, p, schedule, s', result);
  }

  lemma {:induction false} LinesMoveUp(outbox: seq<Line>, outbox': seq<Line>, j: nat)
    requires 0 < j < |outbox| && outbox <= outbox'
    ensures j - 1 < |outbox'[1..]| && forall i | 0 <= i < j :: outbox'[1..][i] == outbox[i + 1]
  {
  }

  // ------------------------------------------------------------------------------------------
  // A child that notifies and then answers
  // ------------------------------------------------------------------------------------------

  /** A wait in which nobody else does anything and nothing goes wrong. */
  const CALM := Moment([], Succeeds, false, false, true)

  function Emits(k: nat, frames: seq<Json>): seq<Action> {
    seq(|frames|, i requires 0 <= i < |frames| => ChildEmits(k, Some(frames[i])))
  }

  /** Child `k` takes its request, writes some frames and answers. */
  function Serves(k: nat, frames: seq<Json>, result: HandlerResult): seq<Action> {
    [ChildTakes(k)] + (Emits(k, frames) + [ChildAnswers(k, result)])
  }

  /** No frame carries the id of the request at hand or a later one; notifications carry none. */
  predicate AreForOthers(frames: seq<Json>, id: nat) {
    forall i | 0 <= i < |frames| :: var other := frames[i].GetU64("id"); other.Some? ==> other.value < id
  }

  function Lines(frames: seq<Json>): seq<Line> {
    seq(|frames|, i requires 0 <= i < |frames| => Some(frames[i]))
  }

  function WithLines(s: State, k: nat, lines: seq<Line>): State
    requires k < |s.children|
  {
    WithChild(s, k, s.children[k].(outbox := s.children[k].outbox + lines))
  }

  lemma {:induction false} OneEmit(names: set<string>, s: State, k: nat, frame: Json)
    requires IsAlive(s, k) && 0 < s.children[k].nextId && AreForOthers([frame], s.children[k].nextId - 1)
    ensures var a := ChildEmits(k, Some(frame)); Enabled(s, a) && Apply(names, s, a) == WithLines(s, k, [Some(frame)])
  {
    assert [frame][0] == frame;
  }

  lemma {:induction false} WithLinesTwice(s: State, k: nat, a: seq<Line>, b: seq<Line>)
    requires k < |s.children|
    ensures WithLines(WithLines(s, k, a), k, b) == WithLines(s, k, a + b)
  {
    assert (s.children[k].outbox + a) + b == s.children[k].outbox + (a + b);
  }

  lemma {:induction false} EmitsAreHeard(names: set<string>, s: State, p: nat, k: nat, frames: seq<Json>, rest: seq<Action>)
    requires IsAlive(s, k) && 0 < s.children[k].nextId && AreForOthers(frames, s.children[k].nextId - 1)
    ensures Meanwhile(names, s, p, Emits(k, frames) + rest) == Meanwhile(names, WithLines(s, k, Lines(frames)), p, rest)
    decreases |frames|
  {
    hide Enabled;
    hide Apply;
    if frames == [] {
      assert Emits(k, frames) + rest == rest;
      assert s.children[k].outbox + Lines(frames) == s.children[k].outbox;
      assert WithLines(s, k, Lines(frames)) == s;
    } else {
      var a := ChildEmits(k, Some(frames[0]));
      var s' := WithLines(s, k, [Some(frames[0])]);
      OneEmit(names, s, k, frames[0]);
      assert Emits(k, frames) + rest == [a] + (Emits(k, frames[1..]) + rest);
      EmitsAreHeard(names, s', p, k, frames[1..], rest);
      assert [Some(frames[0])] + Lines(frames[1..]) == Lines(frames);
      WithLinesTwice(s, k, [Some(frames[0])], Lines(frames[1..]));
    }
  }

  /** Where the child is after it served request `r`. */
  function AfterServing(names: set<string>, s: State, k: nat, r: Request, frames: seq<Json>, result: HandlerResult): State
    requires k < |s.children|
  {
    var c := s.children[k];
    var reply := Answer(names, r, result);
    WithChild(s, k, c.(inbox := [], busy := None, outbox := c.outbox + Lines(frames) + [Some(reply)],
                       answers := c.answers[r.id := reply]))
  }

  /** The child with request `r` in hand. */
  function AtWork(s: State, k: nat, r: Request): State
    requires k < |s.children|
  {
    WithChild(s, k, s.children[k].(busy := Some(r), inbox := []))
  }

  lemma {:induction false} TakesTheOne(names: set<string>, s: State, p: nat, k: nat, r: Request, rest: seq<Action>)
    requires IsAlive(s, k) && s.children[k].inbox == [r] && s.children[k].busy.None?
    ensures Meanwhile(names, s, p, [ChildTakes(k)] + rest) == Meanwhile(names, AtWork(s, k, r), p, rest)
  {
    assert ([ChildTakes(k)] + rest)[1..] == rest;
    assert s.children[k].inbox[1..] == [];
    assert Apply(names, s, ChildTakes(k)) == AtWork(s, k, r);
  }

  lemma {:induction false} GivesAnswer(
      names: set<string>, s: State, p: nat, k: nat, r: Request, frames: seq<Json>, result: HandlerResult)
    requires IsAlive(s, k)
    ensures Meanwhile(names, WithLines(AtWork(s, k, r), k, Lines(frames)), p, [ChildAnswers(k, result)])
         == AfterServing(names, s, k, r, frames, result)
  {
    hide Answer;
    var a := ChildAnswers(k, result);
    var mid := WithLines(AtWork(s, k, r), k, Lines(frames));
    var s' := AfterServing(names, s, k, r, frames, result);
    assert [a][1..] == [];
    assert mid.children[k := s'.children[k]] == s'.children;
    assert Apply(names, mid, a) == s';
  }

  lemma {:induction false} ServingIsHeard(
      names: set<string>, s: State, p: nat, k: nat, r: Request, frames: seq<Json>, result: HandlerResult)
    requires IsAlive(s, k) && s.children[k].inbox == [r] && s.children[k].busy.None?
    requires s.children[k].nextId == r.id + 1 && AreForOthers(frames, r.id)
    ensures Meanwhile(names, s, p, Serves(k, frames, result)) == AfterServing(names, s, k, r, frames, result)
  {
    hide Meanwhile;
    hide AfterServing;
    TakesTheOne(names, s, p, k, r, Emits(k, frames) + [ChildAnswers(k, result)]);
    EmitsAreHeard(names, AtWork(s, k, r), p, k, frames, [ChildAnswers(k, result)]);
    GivesAnswer(names, s, p, k, r, frames, result);
  }

  /** The reply carries the id of the request and says what the server made of it. */
  lemma {:induction false} AnswerSays(names: set<string>, r: Request, result: HandlerResult)
    requires r.id < U64_LIMIT
    ensures Carries(Answer(names, r, result), r.id) && Says(Answer(names, r, result), Served(names, r, result))
  {
    JudgeOfAnswer(names, r, result);
    RequestIsAnswered(names, r, result);
    hide Served;
    hide Answer;
  }

  /** The child has the request of `p` and nothing else to do; the lines it has left over are JSON. */
  ghost predicate IsFreshlyAsked(s: State, p: nat, attempt: nat, k: nat, id: nat) {
    && p in s.parties && s.parties[p].phase == Reading(attempt, k, id)
    && IsAlive(s, k) && s.children[k].busy.None? && s.children[k].nextId == id + 1
    && s.children[k].inbox == [Request(p, id, s.parties[p].name, s.parties[p].params)]
    && forall i | 0 <= i < |s.children[k].outbox| :: s.children[k].outbox[i].Some?
  }

  lemma {:induction false} LeftoversArePassedOver(names: set<string>, s: State, p: nat, attempt: nat, k: nat, id: nat)
    requires Calling(names, s, p) && IsFreshlyAsked(s, p, attempt, k, id)
    ensures forall i | 0 <= i < |s.children[k].outbox| :: IsPassedOver(s.children[k].outbox[i], id)
  {
    var c := s.children[k];
    assert HolderOk(s, s.parties[p]) && ChildOk(names, c);
    assert id in c.answers ==> NotPending(c.inbox, c.busy, id);
    assert c.inbox[0].id == id;
  }

  lemma {:induction false} AllPassedOver(outbox: seq<Line>, frames: seq<Json>, id: nat)
    requires forall i | 0 <= i < |outbox| :: IsPassedOver(outbox[i], id)
    requires AreForOthers(frames, id)
    ensures forall i | 0 <= i < |outbox + Lines(frames)| :: IsPassedOver((outbox + Lines(frames))[i], id)
  {
    forall i | 0 <= i < |frames| ensures IsPassedOver(Lines(frames)[i], id) {
      assert Lines(frames)[i] == Some(frames[i]);
    }
  }

  /** The schedule may begin after what others do first. */
  lemma {:induction false} PlayFromMiddle(names: set<string>, s: State, p: nat, m: Moment, rest: seq<Moment>, result: CallResult)
    requires Calling(names, s, p) && !s.parties[p].phase.Finished?
    requires EndsWith(names, Meanwhile(names, s, p, m.meanwhile), p, [m.(meanwhile := [])] + rest, result)
    ensures EndsWith(names, s, p, [m] + rest, result)
  {
    hide Inv;
    var mid := Meanwhile(names, s, p, m.meanwhile);
    WaitKeeps(names, s, p, [m] + rest);
    assert Rest([m] + rest) == rest && Rest([m.(meanwhile := [])] + rest) == rest;
    var m' := m.(meanwhile := []);
    assert Next([m'] + rest) == m' && Meanwhile(names, mid, p, []) == mid;
    assert Choice(mid, p, m') == Choice(mid, p, m);
    assert Act(names, mid, p, m') == Act(names, mid, p, m);
    WaitKeeps(names, mid, p, [m'] + rest);
    assert Play(names, mid, p, [m'] + rest) == Play(names, Act(names, mid, p, m'), p, rest);
  }

  lemma {:induction false} ServedIsRead(
      names: set<string>, s: State, p: nat, attempt: nat, k: nat, r: Request, frames: seq<Json>, result: HandlerResult,
      schedule: seq<Moment>)
    requires k < |s.children|
    requires var mid := AfterServing(names, s, k, r, frames, result);
             Calling(names, mid, p) && mid.parties[p].phase == Reading(attempt, k, r.id)
    requires var lines := s.children[k].outbox + Lines(frames);
             && (forall i | 0 <= i < |lines| :: IsPassedOver(lines[i], r.id))
             && |lines| < |schedule|
    requires forall i | 0 <= i < |schedule| :: schedule[i].outcome.Succeeds?
    requires r.id < U64_LIMIT
    ensures EndsWith(names, AfterServing(names, s, k, r, frames, result), p, schedule, Served(names, r, result))
  {
    AnswerSays(names, r, result);
    hide Inv;
    hide Answer;
    hide Served;
    hide Carries;
    hide Says;
    hide IsPassedOver;
    hide Play;
    var mid := AfterServing(names, s, k, r, frames, result);
    var lines := s.children[k].outbox + Lines(frames);
    assert mid.children[k].outbox == lines + [Some(Answer(names, r, result))];
    ReaderIsAnswered(names, mid, p, attempt, k, r.id, schedule, |lines|, Served(names, r, result));
  }

  /** While it waits, the child writes any number of frames for others and then answers. */
  lemma {:induction false} AskedIsServed(
      names: set<string>, s: State, p: nat, attempt: nat, k: nat, id: nat, frames: seq<Json>, result: HandlerResult,
      rest: seq<Moment>)
    requires Calling(names, s, p) && IsFreshlyAsked(s, p, attempt, k, id) && id < U64_LIMIT && AreForOthers(frames, id)
    requires |s.children[k].outbox| + |frames| <= |rest|
    requires forall i | 0 <= i < |rest| :: rest[i].outcome.Succeeds?
    ensures EndsWith(names, s, p, [CALM.(meanwhile := Serves(k, frames, result))] + rest,
                     Served(names, Request(p, id, s.parties[p].name, s.parties[p].params), result))
  {
    hide Inv;
    hide Answer;
    hide Served;
    hide IsPassedOver;
    hide AfterServing;
    hide Meanwhile;
    hide Play;
    hide Serves;
    var r := Request(p, id, s.parties[p].name, s.parties[p].params);
    var m := CALM.(meanwhile := Serves(k, frames, result));
    LeftoversArePassedOver(names, s, p, attempt, k, id);
    AllPassedOver(s.children[k].outbox, frames, id);
    ServingIsHeard(names, s, p, k, r, frames, result);
    MeanwhileKeeps(names, s, p, m.meanwhile);
    hide IsFreshlyAsked;
    hide AreForOthers;
    hide Lines;
    ServedIsRead(names, s, p, attempt, k, r, frames, result, [m.(meanwhile := [])] + rest);
    PlayFromMiddle(names, s, p, m, rest, Served(names, r, result));
  }

  // ------------------------------------------------------------------------------------------
  // Whole calls
  // ------------------------------------------------------------------------------------------

  /** One wait in which nobody else does anything. */
  lemma {:induction false} CalmWait(
      names: set<string>, s: State, p: nat, m: Moment, rest: seq<Moment>, s': State, result: CallResult)
    requires Calling(names, s, p) && !s.parties[p].phase.Finished? && m.meanwhile == []
    requires s' == Act(names, s, p, m)
    ensures Calling(names, s', p)
    ensures EndsWith(names, s', p, rest, result) ==> EndsWith(names, s, p, [m] + rest, result)
  {
    hide Inv;
    ActKeeps(names, s, p, m);
    assert Rest([m] + rest) == rest && Next([m] + rest) == m;
    if EndsWith(names, s', p, rest, result) { OneWait(names, s, p, [m] + rest, s', result); }
  }

  /** Nobody uses child `c` yet: it has nothing to do, and the lines it has left over are JSON. */
  predicate IsIdle(c: Child) {
    && c.alive && c.busy.None? && c.inbox == []
    && forall i | 0 <= i < |c.outbox| :: c.outbox[i].Some?
  }

  /** The child a call is to use: the one in the slot or a new one. */
  function NextChild(s: State): (nat, Child) {
    if s.slot.Some? && s.slot.value < |s.children| then (s.slot.value, s.children[s.slot.value])
    else (|s.children|, NEWBORN)
  }

  /** With the child ready, an answer moment after the write brings what the server made of the request. */
  lemma {:induction false} ReadyIsServed(
      names: set<string>, s: State, p: nat, attempt: nat, k: nat, frames: seq<Json>, result: HandlerResult, rest: seq<Moment>)
    requires Calling(names, s, p) && s.parties[p].phase == Ready(attempt, k) && k < |s.children|
    requires var c := s.children[k];
             IsIdle(c) && c.nextId < U64_LIMIT && AreForOthers(frames, c.nextId) && |c.outbox| + |frames| <= |rest|
    requires forall i | 0 <= i < |rest| :: rest[i].outcome.Succeeds?
    ensures EndsWith(names, s, p, [CALM] + ([CALM.(meanwhile := Serves(k, frames, result))] + rest),
                     Served(names, Request(p, s.children[k].nextId, s.parties[p].name, s.parties[p].params), result))
  {
    hide Inv;
    hide Served;
    hide EndsWith;
    hide AreForOthers;
    hide Serves;
    var id := s.children[k].nextId;
    var outcome := Served(names, Request(p, id, s.parties[p].name, s.parties[p].params), result);
    var tail := [CALM.(meanwhile := Serves(k, frames, result))] + rest;
    ActOnReady(names, s, p, CALM, attempt, k);
    var s' := AfterWrite(s, p, CALM);
    CalmWait(names, s, p, CALM, tail, s', outcome);
    assert IsFreshlyAsked(s', p, attempt, k, id);
    AskedIsServed(names, s', p, attempt, k, id, frames, result, rest);
  }

  /** From the start of an attempt on: the idle child in the slot, or else a new one, is asked and answers. */
  lemma {:induction false} AttemptIsServed(
      names: set<string>, s: State, p: nat, attempt: nat, frames: seq<Json>, result: HandlerResult, rest: seq<Moment>)
    requires Calling(names, s, p) && s.parties[p].phase == Ensuring(attempt)
    requires var (k, c) := NextChild(s);
             IsIdle(c) && c.nextId < U64_LIMIT && AreForOthers(frames, c.nextId) && |c.outbox| + |frames| <= |rest|
    requires forall i | 0 <= i < |rest| :: rest[i].outcome.Succeeds?
    ensures var (k, c) := NextChild(s);
            EndsWith(names, s, p, [CALM] + ([CALM] + ([CALM.(meanwhile := Serves(k, frames, result))] + rest)),
                     Served(names, Request(p, c.nextId, s.parties[p].name, s.parties[p].params), result))
  {
    hide Inv;
    hide Served;
    hide EndsWith;
    hide AreForOthers;
    hide Serves;
    hide IsIdle;
    var (k, c) := NextChild(s);
    var outcome := Served(names, Request(p, c.nextId, s.parties[p].name, s.parties[p].params), result);
    var tail := [CALM] + ([CALM.(meanwhile := Serves(k, frames, result))] + rest);
    ActOnEnsuring(names, s, p, CALM);
    var s' := AfterEnsure(s, p, false, true);
    CalmWait(names, s, p, CALM, tail, s', outcome);
    assert s'.parties[p] == s.parties[p].(phase := Ready(attempt, k)) && s'.children[k] == c;
    ReadyIsServed(names, s', p, attempt, k, frames, result, rest);
  }

  /** The schedule of a call in which the child it uses writes these frames and then answers. */
  function Untroubled(s: State, frames: seq<Json>, result: HandlerResult, rest: seq<Moment>): seq<Moment> {
    [CALM] + ([CALM] + ([CALM] + ([CALM.(meanwhile := Serves(NextChild(s).0, frames, result))] + rest)))
  }

  /** A call gets what the server made of its request, however many notifications and stale answers
      the child writes first, on a new child as on one that has served before, if the time is enough
      to take all these lines and the child prints nothing but JSON. */
  lemma {:induction false} CallIsServed(
      names: set<string>, s: State, p: nat, name: string, params: Json,
      frames: seq<Json>, result: HandlerResult, rest: seq<Moment>)
    requires Reaches(names, START, s) && p !in s.parties && s.lock.None?
    requires var (k, c) := NextChild(s);
             IsIdle(c) && c.nextId < U64_LIMIT && AreForOthers(frames, c.nextId) && |c.outbox| + |frames| <= |rest|
    requires forall i | 0 <= i < |rest| :: rest[i].outcome.Succeeds?
    ensures EndsWith(names, Apply(names, s, Arrive(p, name, params)), p, Untroubled(s, frames, result, rest),
                     Served(names, Request(p, NextChild(s).1.nextId, name, params), result))
  {
    hide Served;
    hide EndsWith;
    hide AreForOthers;
    hide Serves;
    hide IsIdle;
    hide Reaches;
    var s1 := Apply(names, s, Arrive(p, name, params));
    ArrivalKeeps(names, s, p, name, params);
    hide Inv;
    ActOnQueued(names, s1, p, CALM);
    var s2 := Moved(s1, p, Ensuring(0)).(lock := Some(p));
    var (k, c) := NextChild(s);
    assert NextChild(s2) == (k, c);
    var tail := [CALM] + ([CALM] + ([CALM.(meanwhile := Serves(k, frames, result))] + rest));
    CalmWait(names, s1, p, CALM, tail, s2, Served(names, Request(p, c.nextId, name, params), result));
    AttemptIsServed(names, s2, p, 0, frames, result, rest);
  }

  /** In particular the value a handler returns is the value the call returns. */
  lemma {:induction false} CallReturnsTheValue(
      names: set<string>, s: State, p: nat, name: string, params: Json, notes: seq<Json>, value: Json, rest: seq<Moment>)
    requires Reaches(names, START, s) && p !in s.parties && s.lock.None? && s.slot.None?
    requires name in names && params.Obj?
    requires forall i | 0 <= i < |notes| :: notes[i].Get("id").None?
    requires |notes| <= |rest| && forall i | 0 <= i < |rest| :: rest[i].outcome.Succeeds?
    ensures EndsWith(names, Apply(names, s, Arrive(p, name, params)), p, Untroubled(s, notes, Returned(value), rest), Ok(value))
  {
    hide EndsWith;
    hide Reaches;
    hide Untroubled;
    hide Apply;
    CallIsServed(names, s, p, name, params, notes, Returned(value), rest);
    ObjectsAreParams(Request(p, 1, name, params));
  }

  lemma {:induction false} ObjectsAreParams(r: Request)
    requires r.params.Obj?
    ensures ParamsOf(RequestJson(r)).Obj?
  {
    assert RequestJson(r).Get("params") == Some(r.params);
  }

  // ------------------------------------------------------------------------------------------
  // Calls in trouble
  // ------------------------------------------------------------------------------------------

  predicate InFlight(phase: Phase) {
    phase.Ready? || phase.Reading?
  }

  /** A wait in flight that does not succeed: the child is taken from the slot, to be killed. */
  lemma {:induction false} TroubleInFlight(names: set<string>, s: State, p: nat, m: Moment)
    requires Calling(names, s, p) && InFlight(s.parties[p].phase) && !m.outcome.Succeeds?
    ensures var s' := Act(names, s, p, m);
            && Calling(names, s', p) && s'.slot.None? && |s'.children| == |s.children|
            && s'.parties[p].name == s.parties[p].name && s'.parties[p].params == s.parties[p].params
            && s'.parties[p].phase
               == Killing(s.parties[p].phase.child,
                          if m.outcome.DeadlinePassed? then Some(Timeout)
                          else if s.parties[p].phase.attempt == 0 then None else Some(EarlyExit))
  {
    ActKeeps(names, s, p, m);
    hide Inv;
    var phase := s.parties[p].phase;
    if phase.Ready? {
      ActOnReady(names, s, p, m, phase.attempt, phase.child);
    } else {
      ActOnReading(names, s, p, m, phase.attempt, phase.child, phase.id);
    }
  }

  /** Once its result is decided the call returns it. */
  lemma {:induction false} DecidedEnds(names: set<string>, s: State, p: nat, schedule: seq<Moment>, k: nat, result: CallResult)
    requires Calling(names, s, p) && s.parties[p].phase == Killing(k, Some(result))
    ensures EndsWith(names, s, p, schedule, result)
  {
    hide Inv;
    var m := Next(schedule);
    WaitKeeps(names, s, p, schedule);
    var mid := Meanwhile(names, s, p, m.meanwhile);
    ActOnKilling(names, mid, p, m, k, Some(result));
    AtEnd(names, Act(names, mid, p, m), p, Rest(schedule), result);
    OneWait(names, s, p, schedule, Act(names, mid, p, m), result);
  }

  /** A deadline in flight ends the call as timed out, at the first attempt too, whatever may follow:
      nothing is tried again. */
  lemma {:induction false} DeadlineInFlight(names: set<string>, s: State, p: nat, schedule: seq<Moment>)
    requires Calling(names, s, p) && InFlight(s.parties[p].phase) && Next(schedule).outcome.DeadlinePassed?
    ensures EndsWith(names, s, p, schedule, Timeout)
  {
    hide Inv;
    var m := Next(schedule);
    WaitKeeps(names, s, p, schedule);
    var mid := Meanwhile(names, s, p, m.meanwhile);
    TroubleInFlight(names, mid, p, m);
    DecidedEnds(names, Act(names, mid, p, m), p, Rest(schedule), s.parties[p].phase.child, Timeout);
    OneWait(names, s, p, schedule, Act(names, mid, p, m), Timeout);
  }

  /** A second death ends the call, whatever may follow. */
  lemma {:induction false} SecondDeath(names: set<string>, s: State, p: nat, schedule: seq<Moment>)
    requires Calling(names, s, p) && InFlight(s.parties[p].phase) && s.parties[p].phase.attempt == 1
    requires Next(schedule).outcome.Fails?
    ensures EndsWith(names, s, p, schedule, EarlyExit)
  {
    hide Inv;
    var m := Next(schedule);
    WaitKeeps(names, s, p, schedule);
    var mid := Meanwhile(names, s, p, m.meanwhile);
    TroubleInFlight(names, mid, p, m);
    DecidedEnds(names, Act(names, mid, p, m), p, Rest(schedule), s.parties[p].phase.child, EarlyExit);
    OneWait(names, s, p, schedule, Act(names, mid, p, m), EarlyExit);
  }

  /** A deadline in the queue ends the call as timed out before anything is written. */
  lemma {:induction false} DeadlineInQueue(names: set<string>, s: State, p: nat, schedule: seq<Moment>)
    requires Calling(names, s, p) && s.parties[p].phase.Queued? && Next(schedule).outcome.DeadlinePassed?
    ensures EndsWith(names, s, p, schedule, QueueTimeout)
  {
    hide Inv;
    var m := Next(schedule);
    WaitKeeps(names, s, p, schedule);
    var mid := Meanwhile(names, s, p, m.meanwhile);
    ActOnQueued(names, mid, p, m);
    AtEnd(names, Act(names, mid, p, m), p, Rest(schedule), QueueTimeout);
    OneWait(names, s, p, schedule, Act(names, mid, p, m), QueueTimeout);
  }

  /** A spawn that is needed and fails ends the call. */
  lemma {:induction false} SpawnFailure(names: set<string>, s: State, p: nat, schedule: seq<Moment>)
    requires Calling(names, s, p) && s.parties[p].phase.Ensuring?
    requires var m := Next(schedule);
             var mid := Meanwhile(names, s, p, m.meanwhile);
             !m.spawned && (mid.slot.None? || (m.sawExit && !IsAlive(mid, mid.slot.value)))
    ensures EndsWith(names, s, p, schedule, SpawnError)
  {
    hide Inv;
    var m := Next(schedule);
    WaitKeeps(names, s, p, schedule);
    var mid := Meanwhile(names, s, p, m.meanwhile);
    ActOnEnsuring(names, mid, p, m);
    AtEnd(names, Act(names, mid, p, m), p, Rest(schedule), SpawnError);
    OneWait(names, s, p, schedule, Act(names, mid, p, m), SpawnError);
  }

  /** A child seen to have exited while idle is dropped, and another one takes its place: nothing is
      written to the dead one. */
  lemma {:induction false} ExitedChildIsReplaced(names: set<string>, s: State, p: nat, m: Moment, attempt: nat)
    requires Calling(names, s, p) && s.parties[p].phase == Ensuring(attempt) && m.sawExit && m.spawned
    requires s.slot.Some? && !IsAlive(s, s.slot.value)
    ensures var s' := Act(names, s, p, m);
            && s'.slot == Some(|s.children|) && s'.children == s.children + [Child(true, 1, 0, [], None, [], [], map[])]
            && p in s'.parties && s'.parties[p] == s.parties[p].(phase := Ready(attempt, |s.children|))
  {
    ActOnEnsuring(names, s, p, m);
    hide Inv;
  }

  /** The schedule after a first death: the child is killed, another one is spawned, asked, and answers. */
  function Recovery(k: nat, frames: seq<Json>, result: HandlerResult, rest: seq<Moment>): seq<Moment> {
    [CALM] + ([CALM] + ([CALM] + ([CALM.(meanwhile := Serves(k, frames, result))] + rest)))
  }

  /** A first death is not seen by the caller: the request goes to a new child, under its first id, and
      the call returns what the server makes of it there. */
  lemma {:induction false} FirstDeathIsRetried(
      names: set<string>, s: State, p: nat, m: Moment, frames: seq<Json>, result: HandlerResult, rest: seq<Moment>)
    requires Calling(names, s, p) && InFlight(s.parties[p].phase) && s.parties[p].phase.attempt == 0
    requires m.outcome.Fails? && AreForOthers(frames, 1)
    requires |frames| <= |rest| && forall i | 0 <= i < |rest| :: rest[i].outcome.Succeeds?
    ensures var k := |Meanwhile(names, s, p, m.meanwhile).children|;
            EndsWith(names, s, p, [m] + Recovery(k, frames, result, rest),
                     Served(names, Request(p, 1, s.parties[p].name, s.parties[p].params), result))
  {
    hide Inv;
    hide Served;
    hide Serves;
    hide AreForOthers;
    var mid := Meanwhile(names, s, p, m.meanwhile);
    var schedule := [m] + Recovery(|mid.children|, frames, result, rest);
    assert Rest(schedule) == Recovery(|mid.children|, frames, result, rest);
    WaitKeeps(names, s, p, schedule);
    TroubleInFlight(names, mid, p, m);
    var dead := Act(names, mid, p, m);
    KilledIsRetried(names, dead, p, s.parties[p].phase.child, frames, result, rest);
    hide Recovery;
    OneWait(names, s, p, schedule, dead, Served(names, Request(p, 1, s.parties[p].name, s.parties[p].params), result));
  }

  lemma {:induction false} KilledIsRetried(
      names: set<string>, s: State, p: nat, k: nat, frames: seq<Json>, result: HandlerResult, rest: seq<Moment>)
    requires Calling(names, s, p) && s.parties[p].phase == Killing(k, None) && s.slot.None? && AreForOthers(frames, 1)
    requires |frames| <= |rest| && forall i | 0 <= i < |rest| :: rest[i].outcome.Succeeds?
    ensures EndsWith(names, s, p, Recovery(|s.children|, frames, result, rest),
                     Served(names, Request(p, 1, s.parties[p].name, s.parties[p].params), result))
  {
    hide Inv;
    hide Served;
    hide Serves;
    hide AreForOthers;
    hide EndsWith;
    var outcome := Served(names, Request(p, 1, s.parties[p].name, s.parties[p].params), result);
    ActOnKilling(names, s, p, CALM, k, None);
    var s' := AfterKill(s, p, k, None);
    var tail := [CALM] + ([CALM] + ([CALM.(meanwhile := Serves(|s.children|, frames, result))] + rest));
    CalmWait(names, s, p, CALM, tail, s', outcome);
    AttemptIsServed(names, s', p, 1, frames, result, rest);
  }
}
