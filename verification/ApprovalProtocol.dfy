// The approval handshake as a labelled transition system. The agent logs a question,
// puts an envelope on a channel of capacity one, waits, and logs the decision. The
// terminal sees the logged events in order, and the envelopes in whatever order the
// scheduler likes. Every interleaving of the two sides is a run
// (src/cli/approval_join.rs:121-342, src/cli/approval.rs:45-74, src/agent/mod.rs:3433-3521
// and 3876-3932).
module ApprovalProtocol {
  import opened Common
  import opened SessionLog
  import opened ApprovalJoinModel

  // One question of the agent; both halves are made from it.
  datatype Question = Question(id: string, tool: string, call: string, reason: Option<string>, canonical: bool)

  function HalfOf(q: Question): Half {
    Half(q.id, q.tool, Some(q.call), q.reason)
  }

  function RequestOf(q: Question): Request {
    Request.Request(q.id, q.tool, q.call, q.reason, q.canonical)
  }

  // What the agent guarantees of a question: a bounded identifier, and a canonical
  // preview only for apply_patch.
  predicate IsQuestion(q: Question) {
    |q.id| <= 1024 && (q.canonical ==> q.tool == "apply_patch")
  }

  datatype Producer =
    | Quiet
    | Committed(q: Question)                                // asked is logged
    | Waiting(q: Question)                                  // the envelope was sent
    | Heard(q: Question, outcome: ApprovalOutcome)          // the outcome is known
    | Over                                                  // turn end is logged

  datatype UiEvent = AskedEvent(half: Half) | DecidedEvent(id: string, outcome: ApprovalOutcome) | TurnEndEvent

  // What the terminal put into the reply slot of the envelope the agent waits for.
  datatype Reply = NoReply | Replied(response: Response)

  datatype Config = Config(
    producer: Producer,
    questions: seq<Question>,       // all questions of the turn
    history: seq<UiEvent>,          // all events of the turn
    observed: nat,                  // how many of them the terminal has seen
    channel: Option<Request>,
    sent: int,                      // index of the last question whose envelope was sent
    reply: Reply,
    cancelled: bool,
    lost: bool,                     // the observer became unavailable
    join: JoinState,
    allowed: set<Question>,         // questions the user was shown and allowed
    fault: bool)                    // a transition of the join was refused

  datatype Label =
    | Ask(q: Question)
    | Send
    | Skip                          // the question is not visible: nobody is asked
    | Cancel
    | NoticeCancel
    | TakeReply
    | Drop                          // the terminal went away with the envelope
    | Decide
    | End
    | Observe
    | Receive
    | Reply(outcome: ApprovalOutcome)

  predicate Initial(c: Config) {
    && c.producer == Quiet && c.questions == [] && c.history == [] && c.observed == 0
    && c.channel.None? && c.sent == -1 && c.reply == NoReply && !c.cancelled && !c.lost
    && PoolOk(c.join.pool)
    && c.join == JoinState(c.join.pool, None, None, None, None, [], 0, true, false)
    && c.allowed == {} && !c.fault
  }

  predicate IsFresh(c: Config, q: Question) {
    forall i :: 0 <= i < |c.questions| ==> c.questions[i].id != q.id
  }

  predicate Enabled(c: Config, l: Label) {
    match l
    case Ask(q) => c.producer == Quiet && IsQuestion(q) && IsFresh(c, q) && |c.questions| < MAX_DECIDED_IDS
    case Send => c.producer.Committed? && !c.lost
    case Skip => c.producer.Committed?
    case Cancel => true
    case NoticeCancel => c.producer.Waiting? && c.cancelled
    case TakeReply => c.producer.Waiting? && c.reply.Replied? && !c.cancelled
    case Drop => c.producer.Waiting?
    case Decide => c.producer.Heard?
    case End => c.producer == Quiet
    case Observe => c.observed < |c.history| && PoolOk(c.join.pool)
    case Receive => c.channel.Some? && PoolOk(c.join.pool)
    case Reply(_) => c.join.active.Some?
  }

  // The join made a move; what it sent reaches the agent only if that still waits for it.
  function Moved(c: Config, m: Move): Config {
    c.(join := m.next,
       fault := c.fault || !m.ok,
       reply := if m.sent.Some? && c.producer.Waiting? && c.producer.q.id == m.sent.value.id && c.reply.NoReply?
                then Replied(m.sent.value) else c.reply)
  }

  function ObserveMove(j: JoinState, e: UiEvent): Move
    requires PoolOk(j.pool)
  {
    match e
    case AskedEvent(half) => ObserveAsked(j, half)
    case DecidedEvent(id, _) => ObserveDecided(j, id)
    case TurnEndEvent => ObserveTurnEnd(j)
  }

  // The outcome of a reply: only one with the expected identifier counts.
  function Taken(q: Question, r: Response): ApprovalOutcome {
    if r.id == q.id then r.outcome else Unavailable
  }

  // The question the user is shown.
  function Shown(a: Active): Question {
    Question(a.asked.id, a.asked.tool, a.request.call, a.asked.reason, a.request.canonical)
  }

  function After(c: Config, l: Label): Config
    requires Enabled(c, l)
  {
    match l
    case Ask(q) =>
      c.(producer := Committed(q), questions := c.questions + [q], history := c.history + [AskedEvent(HalfOf(q))], reply := NoReply)
    case Send =>
      if c.cancelled then c.(producer := Heard(c.producer.q, ApprovalOutcome.Cancelled))
      else if c.channel.Some? then c.(producer := Heard(c.producer.q, Unavailable))
      else c.(producer := Waiting(c.producer.q), channel := Some(RequestOf(c.producer.q)), sent := |c.questions| - 1)
    case Skip => c.(producer := Heard(c.producer.q, Unavailable), lost := true)
    case Cancel => c.(cancelled := true)
    case NoticeCancel => c.(producer := Heard(c.producer.q, ApprovalOutcome.Cancelled), reply := NoReply)
    case TakeReply => c.(producer := Heard(c.producer.q, Taken(c.producer.q, c.reply.response)), reply := NoReply)
    case Drop => c.(producer := Heard(c.producer.q, Unavailable), reply := NoReply, lost := true)
    case Decide => c.(producer := Quiet, history := c.history + [DecidedEvent(c.producer.q.id, c.producer.outcome)])
    case End => c.(producer := Over, history := c.history + [TurnEndEvent])
    case Observe => Moved(c.(observed := c.observed + 1), ObserveMove(c.join, c.history[c.observed]))
    case Receive =>
      var closed := !(c.producer.Waiting? && c.producer.q.id == c.channel.value.id);
      Moved(c.(channel := None), ReceiveEnvelope(c.join, c.channel.value, closed))
    case Reply(outcome) =>
      var answered := Moved(c, Answer(c.join, outcome));
      if outcome == AllowedOnce then answered.(allowed := c.allowed + {Shown(c.join.active.value)}) else answered
  }

  // A run: configurations joined by enabled steps.
  ghost predicate IsRun(cs: seq<Config>, ls: seq<Label>) {
    && |cs| == |ls| + 1
    && Initial(cs[0])
    && forall i :: 0 <= i < |ls| ==> StepAt(cs, ls, i)
  }

  predicate StepAt(cs: seq<Config>, ls: seq<Label>, i: nat)
    requires i < |ls| && |cs| == |ls| + 1
  {
    Enabled(cs[i], ls[i]) && cs[i + 1] == After(cs[i], ls[i])
  }

  // ----- the invariant

  function Ids(qs: seq<Question>): (ids: seq<string>)
    ensures |ids| == |qs|
    ensures forall i :: 0 <= i < |qs| ==> ids[i] == qs[i].id
  {
    seq(|qs|, i requires 0 <= i < |qs| => qs[i].id)
  }

  predicate QuestionsOk(qs: seq<Question>) {
    && |qs| <= MAX_DECIDED_IDS
    && (forall i :: 0 <= i < |qs| ==> IsQuestion(qs[i]))
    && (forall i, j :: 0 <= i < j < |qs| ==> qs[i].id != qs[j].id)
  }

  // Asked and decided alternate, question by question; turn end comes last.
  predicate HistoryOk(c: Config) {
    var n := |c.questions|;
    && |c.history| == 2 * n + (if c.producer.Over? then 1 else if c.producer.Quiet? then 0 else -1)
    && (!c.producer.Quiet? && !c.producer.Over? ==> n > 0 && c.producer.q == c.questions[n - 1])
    && (forall i :: 0 <= i < n ==> c.history[2 * i] == AskedEvent(HalfOf(c.questions[i])))
    && (forall i :: 0 <= i < n && 2 * i + 1 < |c.history| ==> c.history[2 * i + 1].DecidedEvent? && c.history[2 * i + 1].id == c.questions[i].id)
    && (c.producer.Over? ==> c.history[2 * n] == TurnEndEvent)
    && c.observed <= |c.history|
  }

  // The terminal has seen the question k but not its decision: it is half known, shown,
  // or answered.
  predicate Midway(j: JoinState, q: Question) {
    || (j.asked == Some(HalfOf(q)) && j.active.None? && j.awaiting.None?)
    || (j.asked.None? && j.active.Some? && j.active.value.asked == HalfOf(q) && j.active.value.request == RequestOf(q) && j.awaiting.None?)
    || (j.asked.None? && j.active.None? && j.awaiting == Some(q.id))
  }

  predicate Between(j: JoinState) {
    j.asked.None? && j.active.None? && j.awaiting.None?
  }

  // How many decisions the terminal has seen.
  function Known(c: Config): nat {
    if c.observed / 2 < |c.questions| then c.observed / 2 else |c.questions|
  }

  predicate JoinMatches(c: Config) {
    var n := |c.questions|;
    && JoinOk(c.join)
    && c.join.open
    && (c.join.ended <==> c.observed == 2 * n + 1)
    && c.join.decided == Ids(c.questions[..Known(c)])
    && (if c.observed % 2 == 1 && c.observed < 2 * n then Midway(c.join, c.questions[c.observed / 2]) else Between(c.join))
  }

  // Question p was answered by the terminal, and nothing of its envelope is left.
  predicate Settled(c: Config, p: int)
  {
    && 0 <= p < |c.questions|
    && c.sent == p && c.channel.None? && c.join.envelope.None?
    && c.observed >= 2 * p + 1
    && (c.observed == 2 * p + 1 ==> c.join.awaiting == Some(c.questions[p].id))
  }

  // Where the envelope that was sent last may be.
  predicate EnvelopeMatches(c: Config) {
    && -1 <= c.sent < |c.questions|
    && (c.join.active.Some? || c.join.awaiting.Some? ==> c.observed / 2 <= c.sent)
    && (c.sent < 0 ==> c.channel.None? && c.join.envelope.None?)
    && (c.sent >= 0 ==>
          && c.observed >= 2 * c.sent - 1
          && (c.observed == 2 * c.sent - 1 ==> c.join.awaiting.Some?))
    && (c.channel.Some? ==>
          && c.channel.value == RequestOf(c.questions[c.sent])
          && c.join.envelope.None?
          && (c.observed == 2 * c.sent + 1 ==> c.join.asked.Some?))
    && (c.join.envelope.Some? ==>
          && c.join.envelope.value == RequestOf(c.questions[c.sent])
          && c.observed <= 2 * c.sent)
  }

  // What the agent knows: it waits for the envelope sent last, a reply means that
  // question was settled, and unless it was cancelled or lost its observer every
  // earlier question was settled too.
  predicate ProducerMatches(c: Config) {
    var n := |c.questions|;
    && (c.producer.Waiting? ==> c.sent == n - 1)
    && (!c.producer.Waiting? ==> c.reply == NoReply)
    && (c.producer.Waiting? && c.reply.Replied? ==> Settled(c, n - 1) && c.reply.response.id == c.producer.q.id)
    && (!c.cancelled && !c.lost ==>
          && (c.producer.Quiet? || c.producer.Over? || c.producer.Heard? ==> if n > 0 then Settled(c, n - 1) else c.sent == -1)
          && (c.producer.Committed? ==> if n > 1 then Settled(c, n - 2) else c.sent == -1))
    && (c.producer.Committed? ==> c.sent < n - 1)
  }

  // Whoever was allowed was shown exactly that question.
  predicate AllowedMatches(c: Config) {
    && (c.producer.Waiting? && c.reply.Replied? && c.reply.response.outcome == AllowedOnce ==> c.producer.q in c.allowed)
    && (c.producer.Heard? && c.producer.outcome == AllowedOnce ==> c.producer.q in c.allowed)
    && forall i :: 0 <= i < |c.questions| && LogsAllowance(c.history, i) ==> c.questions[i] in c.allowed
  }

  // The log says that question i was allowed.
  predicate LogsAllowance(history: seq<UiEvent>, i: int) {
    0 <= 2 * i + 1 < |history| && history[2 * i + 1].DecidedEvent? && history[2 * i + 1].outcome == AllowedOnce
  }

  predicate Inv(c: Config) {
    && QuestionsOk(c.questions)
    && HistoryOk(c)
    && JoinMatches(c)
    && EnvelopeMatches(c)
    && ProducerMatches(c)
    && AllowedMatches(c)
    && !c.fault
  }

  lemma InitialOk(c: Config)
    requires Initial(c)
    ensures Inv(c)
  {
  }

  // ----- the moves of the join, as the protocol makes them

  // Both halves are there: the question is shown, or answered at once without a challenge.
  predicate Joined(j: JoinState, m: Move, q: Question) {
    && m.ok
    && JoinOk(m.next)
    && m.next.asked.None? && m.next.envelope.None?
    && m.next.decided == j.decided && m.next.open == j.open && m.next.ended == j.ended
    && (|| (m.next.active.Some? && m.next.active.value.asked == HalfOf(q) && m.next.active.value.request == RequestOf(q)
            && m.next.awaiting.None? && m.sent.None?)
        || (m.next.active.None? && m.next.awaiting == Some(q.id) && m.sent == Some(Response(q.id, Unavailable))))
  }

  lemma AskedMove(j: JoinState, q: Question)
    requires JoinOk(j) && j.open && !j.ended && Between(j) && IsQuestion(q) && q.id !in j.decided
    requires j.envelope.Some? ==> j.envelope.value == RequestOf(q)
    ensures
      var m := ObserveAsked(j, HalfOf(q));
      if j.envelope.Some? then Joined(j, m, q)
      else m == Move(true, j.(asked := Some(HalfOf(q))), None) && JoinOk(m.next)
  {
  }

  lemma ReceiveMove(j: JoinState, q: Question)
    requires JoinOk(j) && j.open && !j.ended && IsQuestion(q) && q.id !in j.decided
    requires j.awaiting != Some(q.id) && j.envelope.None? && j.active.None?
    requires j.asked.Some? ==> j.asked.value == HalfOf(q) && j.awaiting.None?
    ensures
      var m := ReceiveEnvelope(j, RequestOf(q), false);
      if j.asked.Some? then Joined(j, m, q)
      else m == Move(true, j.(envelope := Some(RequestOf(q))), None) && JoinOk(m.next)
  {
  }

  lemma DecidedMove(j: JoinState, q: Question)
    requires JoinOk(j) && j.open && !j.ended && Midway(j, q) && IsQuestion(q)
    requires q.id !in j.decided && |j.decided| < MAX_DECIDED_IDS && BoundedIds(j.decided)
    ensures
      var m := ObserveDecided(j, q.id);
      && m.ok && m.sent.None? && JoinOk(m.next)
      && m.next == j.(active := None, asked := None, awaiting := None,
                      envelope := if j.envelope.Some? && j.envelope.value.id == q.id then None else j.envelope,
                      decided := j.decided + [q.id], decidedBytes := j.decidedBytes + |q.id|)
  {
    BytesPush(j.decided, q.id);
    BytesBounded(j.decided);
  }

  predicate BoundedIds(ids: seq<string>) {
    forall i :: 0 <= i < |ids| ==> |ids[i]| <= 1024
  }

  // The tombstones of a turn always have room for one more.
  lemma {:induction false} BytesBounded(ids: seq<string>)
    requires BoundedIds(ids)
    ensures Bytes(ids) <= 1024 * |ids|
  {
    if |ids| > 0 {
      BytesBounded(ids[..|ids| - 1]);
    }
  }

  // ----- every step keeps the invariant

  lemma IdsGrow(qs: seq<Question>, k: nat)
    requires k < |qs|
    ensures Ids(qs[..k + 1]) == Ids(qs[..k]) + [qs[k].id]
  {
  }

  lemma AskOk(c: Config, q: Question)
    requires Inv(c) && Enabled(c, Ask(q))
    ensures Inv(After(c, Ask(q)))
  {
    hide JoinOk, Midway, Between, Ids, ProducerMatches, AllowedMatches;
    var d := After(c, Ask(q));
    assert d.questions[..Known(d)] == c.questions[..Known(c)];
    AskProducer(c, q);
  }

  lemma AskProducer(c: Config, q: Question)
    requires Inv(c) && Enabled(c, Ask(q))
    ensures ProducerMatches(After(c, Ask(q))) && AllowedMatches(After(c, Ask(q)))
  {
    hide JoinMatches, QuestionsOk;
  }

  lemma SendOk(c: Config)
    requires Inv(c) && Enabled(c, Send)
    ensures Inv(After(c, Send))
  {
    hide JoinOk, QuestionsOk, Ids, LogsAllowance;
  }

  lemma SkipOk(c: Config)
    requires Inv(c) && Enabled(c, Skip)
    ensures Inv(After(c, Skip))
  {
    hide JoinOk, QuestionsOk, Midway, Ids, LogsAllowance;
  }

  lemma CancelOk(c: Config)
    requires Inv(c)
    ensures Inv(After(c, Cancel))
  {
    hide JoinOk, QuestionsOk, Midway, Ids, LogsAllowance;
  }

  lemma NoticeCancelOk(c: Config)
    requires Inv(c) && Enabled(c, NoticeCancel)
    ensures Inv(After(c, NoticeCancel))
  {
    hide JoinOk, QuestionsOk, Midway, Ids, LogsAllowance;
  }

  lemma TakeReplyOk(c: Config)
    requires Inv(c) && Enabled(c, TakeReply)
    ensures Inv(After(c, TakeReply))
  {
    hide JoinOk, QuestionsOk, Midway, Ids, LogsAllowance;
  }

  lemma DropOk(c: Config)
    requires Inv(c) && Enabled(c, Drop)
    ensures Inv(After(c, Drop))
  {
    hide JoinOk, QuestionsOk, Midway, Ids, LogsAllowance;
  }

  lemma DecideOk(c: Config)
    requires Inv(c) && Enabled(c, Decide)
    ensures Inv(After(c, Decide))
  {
    hide JoinOk, QuestionsOk, Midway, Ids;
  }

  lemma EndOk(c: Config)
    requires Inv(c) && Enabled(c, End)
    ensures Inv(After(c, End))
  {
    hide JoinOk, QuestionsOk, Midway, Ids;
  }

  lemma ReplyOk(c: Config, outcome: ApprovalOutcome)
    requires Inv(c) && Enabled(c, Label.Reply(outcome))
    ensures Inv(After(c, Label.Reply(outcome)))
  {
    hide QuestionsOk, Ids, JoinOk, HalfOf, RequestOf, ProducerMatches, AllowedMatches;
    assert JoinOk(After(c, Label.Reply(outcome)).join) by { AnsweredOk(c.join, outcome); }
    ShownIs(c);
    ReplyProducer(c, outcome);
  }

  lemma ReplyProducer(c: Config, outcome: ApprovalOutcome)
    requires Inv(c) && Enabled(c, Label.Reply(outcome))
    ensures ProducerMatches(After(c, Label.Reply(outcome))) && AllowedMatches(After(c, Label.Reply(outcome)))
  {
    hide QuestionsOk, Ids, JoinOk, HalfOf, RequestOf, LogsAllowance;
    ShownIs(c);
  }

  lemma AnsweredOk(j: JoinState, outcome: ApprovalOutcome)
    requires JoinOk(j) && j.active.Some?
    ensures JoinOk(Answer(j, outcome).next)
  {
  }

  // The question on the screen is one of the agent's, word for word.
  lemma ShownIs(c: Config)
    requires Inv(c) && c.join.active.Some?
    ensures
      var k := c.observed / 2;
      && c.observed == 2 * k + 1 && k < |c.questions| && k == c.sent
      && Shown(c.join.active.value) == c.questions[k]
      && c.join.active.value.asked.id == c.questions[k].id
  {
  }

  // An identifier that was not decided yet has no tombstone.
  lemma NotYetDecided(qs: seq<Question>, k: nat, i: nat)
    requires QuestionsOk(qs) && k <= i < |qs|
    ensures qs[i].id !in Ids(qs[..k]) && IsQuestion(qs[i])
    ensures BoundedIds(Ids(qs[..k]))
  {
  }

  // Which event the terminal sees next.
  lemma NextEvent(c: Config)
    requires HistoryOk(c) && c.observed < |c.history|
    ensures
      var k := c.observed / 2;
      && (c.history[c.observed].AskedEvent? ==>
            c.observed == 2 * k && k < |c.questions| && c.history[c.observed] == AskedEvent(HalfOf(c.questions[k])))
      && (c.history[c.observed].DecidedEvent? ==>
            c.observed == 2 * k + 1 && k < |c.questions| && c.history[c.observed].id == c.questions[k].id)
      && (c.history[c.observed].TurnEndEvent? ==> c.observed == 2 * |c.questions| && c.producer.Over?)
  {
    var k := c.observed / 2;
    assert c.observed == 2 * k || c.observed == 2 * k + 1;
    if k < |c.questions| {
      assert c.history[2 * k] == AskedEvent(HalfOf(c.questions[k]));
    }
  }

  lemma AskedFacts(c: Config)
    requires Inv(c) && Enabled(c, Observe) && c.history[c.observed].AskedEvent?
    ensures
      var k, j := c.observed / 2, c.join;
      && c.observed == 2 * k && k < |c.questions| && Known(c) == k
      && c.history[c.observed] == AskedEvent(HalfOf(c.questions[k]))
      && (j.envelope.Some? ==> c.sent == k && j.envelope.value == RequestOf(c.questions[k]))
      && (var m := ObserveAsked(j, HalfOf(c.questions[k]));
          if j.envelope.Some? then Joined(j, m, c.questions[k])
          else m == Move(true, j.(asked := Some(HalfOf(c.questions[k]))), None) && JoinOk(m.next))
  {
    hide ObserveAsked, ProducerMatches, AllowedMatches, JoinOk;
    NextEvent(c);
    NotYetDecided(c.questions, c.observed / 2, c.observed / 2);
    AskedMove(c.join, c.questions[c.observed / 2]);
  }

  lemma ObserveAskedOk(c: Config)
    requires Inv(c) && Enabled(c, Observe) && c.history[c.observed].AskedEvent?
    ensures Inv(After(c, Observe))
  {
    hide ObserveAsked, Ids, QuestionsOk, JoinOk, HalfOf, RequestOf, LogsAllowance, ProducerMatches, AllowedMatches;
    AskedFacts(c);
    var d := After(c, Observe);
    assert Known(d) == Known(c);
    ObserveAskedProducer(c);
  }

  lemma ObserveAskedProducer(c: Config)
    requires Inv(c) && Enabled(c, Observe) && c.history[c.observed].AskedEvent?
    ensures ProducerMatches(After(c, Observe)) && AllowedMatches(After(c, Observe))
  {
    hide ObserveAsked, Ids, QuestionsOk, JoinOk, HalfOf, RequestOf, LogsAllowance;
    AskedFacts(c);
  }

  lemma DecidedFacts(c: Config)
    requires Inv(c) && Enabled(c, Observe) && c.history[c.observed].DecidedEvent?
    ensures
      var k, j := c.observed / 2, c.join;
      && c.observed == 2 * k + 1 && k < |c.questions| && Known(c) == k
      && c.history[c.observed].id == c.questions[k].id
      && Ids(c.questions[..k + 1]) == Ids(c.questions[..k]) + [c.questions[k].id]
      && (var m := ObserveDecided(j, c.questions[k].id);
          && m.ok && m.sent.None? && JoinOk(m.next)
          && m.next == j.(active := None, asked := None, awaiting := None,
                          envelope := if c.sent == k then None else j.envelope,
                          decided := j.decided + [c.questions[k].id], decidedBytes := j.decidedBytes + |c.questions[k].id|))
  {
    hide ObserveDecided, ProducerMatches, AllowedMatches, JoinOk;
    NextEvent(c);
    var k := c.observed / 2;
    NotYetDecided(c.questions, k, k);
    IdsGrow(c.questions, k);
    DecidedMove(c.join, c.questions[k]);
    if c.join.envelope.Some? && c.sent != k {
      assert c.questions[c.sent].id != c.questions[k].id;
    }
  }

  lemma ObserveDecidedOk(c: Config)
    requires Inv(c) && Enabled(c, Observe) && c.history[c.observed].DecidedEvent?
    ensures Inv(After(c, Observe))
  {
    hide ObserveDecided, Ids, QuestionsOk, JoinOk, HalfOf, RequestOf, LogsAllowance, ProducerMatches, AllowedMatches;
    DecidedFacts(c);
    var d := After(c, Observe);
    assert Known(d) == Known(c) + 1;
    ObserveDecidedProducer(c);
  }

  lemma ObserveDecidedProducer(c: Config)
    requires Inv(c) && Enabled(c, Observe) && c.history[c.observed].DecidedEvent?
    ensures ProducerMatches(After(c, Observe)) && AllowedMatches(After(c, Observe))
  {
    hide ObserveDecided, Ids, QuestionsOk, JoinOk, HalfOf, RequestOf, LogsAllowance;
    DecidedFacts(c);
  }

  lemma ObserveEndOk(c: Config)
    requires Inv(c) && Enabled(c, Observe) && c.history[c.observed].TurnEndEvent?
    ensures Inv(After(c, Observe))
  {
    hide LogsAllowance;
    NextEvent(c);
    hide JoinOk, QuestionsOk, Ids;
    var d := After(c, Observe);
    assert Known(d) == Known(c) == |c.questions|;
    assert JoinOk(d.join) by { EndedOk(c.join); }
  }

  lemma EndedOk(j: JoinState)
    requires JoinOk(j)
    ensures JoinOk(j.(ended := true))
  {
  }

  lemma ReceiveFacts(c: Config)
    requires Inv(c) && Enabled(c, Receive) && c.producer.Waiting? && c.producer.q.id == c.channel.value.id
    ensures
      var j, q := c.join, c.questions[c.sent];
      && c.sent == |c.questions| - 1 && c.channel == Some(RequestOf(q)) && c.producer.q == q
      && (j.asked.Some? ==> c.observed == 2 * c.sent + 1)
      && c.reply == NoReply
      && (var m := ReceiveEnvelope(j, RequestOf(q), false);
          if j.asked.Some? then Joined(j, m, q)
          else m == Move(true, j.(envelope := Some(RequestOf(q))), None) && JoinOk(m.next))
  {
    hide ReceiveEnvelope, JoinOk;
    NotYetDecided(c.questions, Known(c), c.sent);
    ReceiveMove(c.join, c.questions[c.sent]);
  }

  lemma ReceiveOk(c: Config)
    requires Inv(c) && Enabled(c, Receive)
    ensures Inv(After(c, Receive))
  {
    hide Ids, QuestionsOk, JoinOk, TryActivate, ProducerMatches, AllowedMatches;
    var closed := !(c.producer.Waiting? && c.producer.q.id == c.channel.value.id);
    ReceiveProducer(c);
    if closed {
      assert ReceiveEnvelope(c.join, c.channel.value, true) == Move(true, c.join, None);
    } else {
      hide ReceiveEnvelope;
      ReceiveFacts(c);
    }
  }

  lemma ReceiveProducer(c: Config)
    requires Inv(c) && Enabled(c, Receive)
    ensures ProducerMatches(After(c, Receive)) && AllowedMatches(After(c, Receive))
  {
    hide Ids, QuestionsOk, JoinOk, TryActivate, LogsAllowance;
    if c.producer.Waiting? && c.producer.q.id == c.channel.value.id {
      hide ReceiveEnvelope;
      ReceiveFacts(c);
    } else {
      assert ReceiveEnvelope(c.join, c.channel.value, true) == Move(true, c.join, None);
    }
  }

  lemma StepOk(c: Config, l: Label)
    requires Inv(c) && Enabled(c, l)
    ensures Inv(After(c, l))
  {
    hide Inv, After, Enabled;
    match l {
      case Ask(q) => AskOk(c, q);
      case Send => SendOk(c);
      case Skip => SkipOk(c);
      case Cancel => CancelOk(c);
      case NoticeCancel => NoticeCancelOk(c);
      case TakeReply => TakeReplyOk(c);
      case Drop => DropOk(c);
      case Decide => DecideOk(c);
      case End => EndOk(c);
      case Receive => ReceiveOk(c);
      case Reply(outcome) => ReplyOk(c, outcome);
      case Observe => ObserveOk(c);
    }
  }

  lemma ObserveOk(c: Config)
    requires Inv(c) && Enabled(c, Observe)
    ensures Inv(After(c, Observe))
  {
    hide Inv, After;
    match c.history[c.observed] {
      case AskedEvent(_) => ObserveAskedOk(c);
      case DecidedEvent(_, _) => ObserveDecidedOk(c);
      case TurnEndEvent => ObserveEndOk(c);
    }
  }

  // ----- over every run

  lemma {:induction false} RunIsSafe(cs: seq<Config>, ls: seq<Label>)
    requires IsRun(cs, ls)
    ensures Inv(cs[|ls|])
  {
    hide Inv, Initial, Enabled, After;
    if |ls| == 0 {
      InitialOk(cs[0]);
    } else {
      var last := |ls| - 1;
      RunPrefix(cs, ls);
      RunIsSafe(cs[..|ls|], ls[..last]);
      assert StepAt(cs, ls, last);
      StepOk(cs[last], ls[last]);
    }
  }

  lemma RunPrefix(cs: seq<Config>, ls: seq<Label>)
    requires IsRun(cs, ls) && |ls| > 0
    ensures IsRun(cs[..|ls|], ls[..|ls| - 1])
  {
    hide Initial, Enabled, After;
    var ds, ms := cs[..|ls|], ls[..|ls| - 1];
    forall i | 0 <= i < |ms|
      ensures StepAt(ds, ms, i)
    {
      assert StepAt(cs, ls, i);
    }
  }

  // No interleaving makes the join refuse anything, and its memory of decided
  // questions never overflows.
  lemma JoinNeverRefuses(cs: seq<Config>, ls: seq<Label>)
    requires IsRun(cs, ls)
    ensures !cs[|ls|].fault && JoinOk(cs[|ls|].join)
  {
    RunIsSafe(cs, ls);
  }

  // Once the turn is over and the terminal has seen all of it, the turn can be finished.
  lemma FinishSucceeds(cs: seq<Config>, ls: seq<Label>)
    requires IsRun(cs, ls) && cs[|ls|].producer.Over? && cs[|ls|].observed == |cs[|ls|].history|
    ensures FinishTurn(cs[|ls|].join, true).ok
  {
    RunIsSafe(cs, ls);
  }

  // The moment a user allowed a question.
  predicate AllowedAt(cs: seq<Config>, ls: seq<Label>, i: nat, q: Question)
    requires |cs| == |ls| + 1
  {
    i < |ls| && ls[i] == Label.Reply(AllowedOnce) && cs[i].join.active.Some? && Shown(cs[i].join.active.value) == q
  }

  lemma {:induction false} AllowedWasAnswered(cs: seq<Config>, ls: seq<Label>, q: Question)
    requires IsRun(cs, ls) && q in cs[|ls|].allowed
    ensures exists i :: AllowedAt(cs, ls, i, q)
  {
    if |ls| > 0 {
      var last := |ls| - 1;
      assert StepAt(cs, ls, last);
      if q in cs[last].allowed {
        RunPrefix(cs, ls);
        AllowedWasAnswered(cs[..|ls|], ls[..last], q);
        var i :| AllowedAt(cs[..|ls|], ls[..last], i, q);
        assert AllowedAt(cs, ls, i, q);
      } else {
        assert AllowedAt(cs, ls, last, q);
      }
    }
  }

  // The agent hears AllowedOnce only when the user, shown a question with the very
  // identifier, tool, call and reason of the agent's own asked event, allowed it.
  lemma AllowedOnlyByAnswer(cs: seq<Config>, ls: seq<Label>)
    requires IsRun(cs, ls) && cs[|ls|].producer.Heard? && cs[|ls|].producer.outcome == AllowedOnce
    ensures
      var c := cs[|ls|];
      && AskedEvent(HalfOf(c.producer.q)) in c.history
      && exists i :: AllowedAt(cs, ls, i, c.producer.q)
  {
    var c := cs[|ls|];
    RunIsSafe(cs, ls);
    assert c.history[2 * (|c.questions| - 1)] == AskedEvent(HalfOf(c.producer.q));
    AllowedWasAnswered(cs, ls, c.producer.q);
  }

  // The log says that a question was allowed only when the user was shown that very
  // question and allowed it.
  lemma LoggedOnlyByAnswer(cs: seq<Config>, ls: seq<Label>, k: nat)
    requires IsRun(cs, ls) && k < |cs[|ls|].questions| && LogsAllowance(cs[|ls|].history, k)
    ensures
      var c := cs[|ls|];
      && c.history[2 * k] == AskedEvent(HalfOf(c.questions[k]))
      && c.history[2 * k + 1].id == c.questions[k].id
      && exists i :: AllowedAt(cs, ls, i, c.questions[k])
  {
    RunIsSafe(cs, ls);
    AllowedWasAnswered(cs, ls, cs[|ls|].questions[k]);
  }
}
