// The terminal's side of an approval: two halves of one question, an event and an
// envelope, arrive in either order and are joined before anybody is asked
// (src/cli/approval_join.rs and src/cli/approval.rs:77-138).
module ApprovalJoinModel {
  import opened Common
  import opened SessionLog

  const MAX_DECIDED_IDS: nat := 256
  const MAX_DECIDED_ID_BYTES: nat := MAX_DECIDED_IDS * 1024
  const MAX_APPROVAL_CHALLENGES: nat := 4096

  // ----- challenges

  // A pool of random values, of which the first next ones were drawn.
  datatype Pool = Pool(values: seq<nat>, next: nat)

  datatype ChallengeError = Exhausted | Duplicate

  predicate PoolOk(p: Pool) {
    |p.values| == MAX_APPROVAL_CHALLENGES && p.next <= MAX_APPROVAL_CHALLENGES
  }

  // Drawing a value that was drawn before uses it up without handing it out.
  function Draw(p: Pool): (r: Result<nat, ChallengeError>)
    requires PoolOk(p)
  {
    if p.next == MAX_APPROVAL_CHALLENGES then Err(Exhausted)
    else if p.values[p.next] in p.values[..p.next] then Err(Duplicate)
    else Ok(p.values[p.next])
  }

  function Drawn(p: Pool): Pool {
    if p.next == MAX_APPROVAL_CHALLENGES then p else p.(next := p.next + 1)
  }

  // ----- the two halves of a question

  // What the asked event says.
  datatype Half = Half(id: string, tool: string, call: Option<string>, reason: Option<string>)

  // What the envelope says; canonical marks a preview that only apply_patch may show.
  datatype Request = Request(id: string, tool: string, call: string, reason: Option<string>, canonical: bool)

  predicate SameQuestion(h: Half, r: Request) {
    && h.id == r.id && h.tool == r.tool && h.call == Some(r.call) && h.reason == r.reason
    && (r.canonical ==> h.tool == "apply_patch")
  }

  datatype Active = Active(asked: Half, request: Request, challenge: nat)

  datatype JoinState = JoinState(
    pool: Pool,
    asked: Option<Half>,
    envelope: Option<Request>,
    active: Option<Active>,
    awaiting: Option<string>,
    decided: seq<string>,
    decidedBytes: nat,
    open: bool,
    ended: bool)

  // What the terminal sends back through an envelope.
  datatype Response = Response(id: string, outcome: ApprovalOutcome)

  // A transition: whether it was accepted, the state after it, and what was sent.
  datatype Move = Move(ok: bool, next: JoinState, sent: Option<Response>)

  predicate Empty(j: JoinState) {
    j.asked.None? && j.envelope.None? && j.active.None? && j.awaiting.None?
  }

  function Cleared(j: JoinState): JoinState {
    j.(asked := None, envelope := None, active := None, awaiting := None)
  }

  function Bytes(ids: seq<string>): nat {
    if |ids| == 0 then 0 else Bytes(ids[..|ids| - 1]) + |ids[|ids| - 1]|
  }

  predicate JoinOk(j: JoinState) {
    && PoolOk(j.pool)
    && j.decidedBytes == Bytes(j.decided)
    && |j.decided| <= MAX_DECIDED_IDS && j.decidedBytes <= MAX_DECIDED_ID_BYTES
  }

  // ----- the transitions (src/cli/approval_join.rs:121-342)

  function BeginTurn(j: JoinState): Move {
    if j.open || !Empty(j) || j.decided != [] then Move(false, j, None)
    else Move(true, j.(open := true, ended := false), None)
  }

  // Once both halves are there they must agree; then a challenge is drawn, and a
  // failed draw answers the envelope at once.
  function TryActivate(j: JoinState): Move
    requires PoolOk(j.pool)
  {
    if j.asked.None? || j.envelope.None? then Move(true, j, None)
    else
      var asked, request := j.asked.value, j.envelope.value;
      var taken := j.(asked := None, envelope := None);
      if !SameQuestion(asked, request) then Move(false, taken, None)
      else
        var challenge := Draw(j.pool);
        if challenge.Ok? then
          Move(true, taken.(pool := Drawn(j.pool), active := Some(Active(asked, request, challenge.value))), None)
        else
          Move(true, taken.(pool := Drawn(j.pool), awaiting := Some(asked.id)), Some(Response(asked.id, Unavailable)))
  }

  function ObserveAsked(j: JoinState, h: Half): Move
    requires PoolOk(j.pool)
  {
    if !j.open || j.ended || h.id in j.decided || j.asked.Some? || j.active.Some? || j.awaiting.Some? then Move(false, j, None)
    else TryActivate(j.(asked := Some(h)))
  }

  // An envelope that is late, closed or already decided is dropped.
  function ReceiveEnvelope(j: JoinState, r: Request, closed: bool): Move
    requires PoolOk(j.pool)
  {
    if !j.open || j.ended || closed || r.id in j.decided || j.awaiting == Some(r.id) then Move(true, j, None)
    else if j.envelope.Some? || j.active.Some? then Move(false, j, None)
    else TryActivate(j.(envelope := Some(r)))
  }

  function Answer(j: JoinState, outcome: ApprovalOutcome): Move {
    if j.active.None? then Move(false, j, None)
    else
      var id := j.active.value.asked.id;
      Move(true, j.(active := None, awaiting := Some(id)), Some(Response(id, outcome)))
  }

  function RecordDecided(j: JoinState, id: string): Move {
    if id in j.decided then Move(true, j, None)
    else if |j.decided| == MAX_DECIDED_IDS || j.decidedBytes + |id| > MAX_DECIDED_ID_BYTES then Move(false, j, None)
    else Move(true, j.(decided := j.decided + [id], decidedBytes := j.decidedBytes + |id|), None)
  }

  function ObserveDecided(j: JoinState, id: string): Move {
    if !j.open || j.ended then Move(false, j, None)
    else
      var recorded := RecordDecided(j, id);
      if !recorded.ok then recorded
      else if (j.active.Some? && j.active.value.asked.id != id)
           || (j.asked.Some? && j.asked.value.id != id)
           || (j.awaiting.Some? && j.awaiting.value != id) then
        Move(false, Cleared(recorded.next), None)
      else
        Move(true, recorded.next.(
          active := None, asked := None, awaiting := None,
          envelope := if j.envelope.Some? && j.envelope.value.id == id then None else j.envelope), None)
  }

  function ObserveTurnEnd(j: JoinState): Move {
    if !j.open || j.ended then Move(false, j, None) else Move(true, j.(ended := true), None)
  }

  function FinishTurn(j: JoinState, normal: bool): Move {
    if !j.open || (normal && (!j.ended || !Empty(j))) then Move(false, j, None)
    else Move(true, Cleared(j).(decided := [], decidedBytes := 0, open := false, ended := false), None)
  }

  lemma BytesPush(ids: seq<string>, id: string)
    ensures Bytes(ids + [id]) == Bytes(ids) + |id|
  {
    assert (ids + [id])[..|ids|] == ids;
  }

  // ----- the object

  class ChallengePool {
    const values: seq<nat>
    var next: nat

    ghost predicate Valid()
      reads this
    {
      PoolOk(Pool(values, next))
    }

    constructor (values: seq<nat>)
      requires |values| == MAX_APPROVAL_CHALLENGES
      ensures Valid() && this.values == values && next == 0
    {
      this.values := values;
      next := 0;
    }

    // Scan the values drawn so far; a repeated one is used up and refused
    // (src/cli/approval.rs:117-137).
    method Next() returns (r: Result<nat, ChallengeError>)
      requires Valid()
      modifies this
      ensures Valid()
      ensures r == Draw(old(Pool(values, next))) && Pool(values, next) == Drawn(old(Pool(values, next)))
      ensures r.Ok? ==> r.value !in values[..old(next)]
    {
      if next == MAX_APPROVAL_CHALLENGES {
        return Err(Exhausted);
      }
      var candidate := values[next];
      var prior := 0;
      while prior < next
        invariant 0 <= prior <= next && next == old(next)
        invariant candidate !in values[..prior]
      {
        if values[prior] == candidate {
          next := next + 1;
          return Err(Duplicate);
        }
        prior := prior + 1;
      }
      next := next + 1;
      r := Ok(candidate);
    }
  }

  class ApprovalJoin {
    const challenges: ChallengePool
    var asked: Option<Half>
    var envelope: Option<Request>
    var active: Option<Active>
    var awaitingDecision: Option<string>
    var decidedIds: seq<string>
    var decidedIdBytes: nat
    var turnOpen: bool
    var turnEnded: bool

    function State(): JoinState
      reads this, challenges
    {
      JoinState(Pool(challenges.values, challenges.next), asked, envelope, active, awaitingDecision,
                decidedIds, decidedIdBytes, turnOpen, turnEnded)
    }

    // No half of a question, no open question and no decision is waited for.
    ghost predicate Nothing()
      reads this
    {
      asked.None? && envelope.None? && active.None? && awaitingDecision.None?
    }

    ghost predicate Valid()
      reads this, challenges
    {
      challenges.Valid() && JoinOk(State())
    }

    constructor (pool: ChallengePool)
      requires pool.Valid()
      ensures Valid() && challenges == pool
      ensures State() == JoinState(Pool(pool.values, pool.next), None, None, None, None, [], 0, false, false)
    {
      challenges := pool;
      asked, envelope, active, awaitingDecision := None, None, None, None;
      decidedIds, decidedIdBytes, turnOpen, turnEnded := [], 0, false, false;
    }

    method Begin() returns (ok: bool)
      requires Valid()
      modifies this
      ensures Valid() && ok == BeginTurn(old(State())).ok && State() == BeginTurn(old(State())).next
      ensures ok ==> !old(turnOpen) && Nothing() && decidedIds == [] && turnOpen && !turnEnded
    {
      if turnOpen || asked.Some? || envelope.Some? || active.Some? || awaitingDecision.Some? || decidedIds != [] {
        return false;
      }
      turnOpen, turnEnded := true, false;
      ok := true;
    }

    method Activate() returns (ok: bool, sent: Option<Response>)
      requires Valid()
      modifies this, challenges
      ensures Valid() && State() == TryActivate(old(State())).next
      ensures ok == TryActivate(old(State())).ok && sent == TryActivate(old(State())).sent
      ensures sent.Some? ==> old(asked).Some? && sent == Some(Response(old(asked).value.id, Unavailable))
      ensures ok && old(asked).Some? && old(envelope).Some? ==>
        && old(envelope).value.id == old(asked).value.id && old(envelope).value.tool == old(asked).value.tool
        && Some(old(envelope).value.call) == old(asked).value.call && old(envelope).value.reason == old(asked).value.reason
        && (old(envelope).value.canonical ==> old(asked).value.tool == "apply_patch")
    {
      sent := None;
      if asked.None? || envelope.None? {
        return true, sent;
      }
      var half, request := asked.value, envelope.value;
      asked, envelope := None, None;
      if request.id != half.id || request.tool != half.tool || Some(request.call) != half.call
         || request.reason != half.reason || (request.canonical && half.tool != "apply_patch") {
        return false, sent;
      }
      var challenge := challenges.Next();
      match challenge {
        case Ok(value) =>
          active := Some(Active(half, request, value));
        case Err(_) =>
          sent := Some(Response(half.id, Unavailable));
          awaitingDecision := Some(half.id);
      }
      ok := true;
    }

    method Asked(half: Half) returns (ok: bool, sent: Option<Response>)
      requires Valid()
      modifies this, challenges
      ensures Valid() && State() == ObserveAsked(old(State()), half).next
      ensures ok == ObserveAsked(old(State()), half).ok && sent == ObserveAsked(old(State()), half).sent
      ensures ok ==>
        && old(turnOpen) && !old(turnEnded) && half.id !in old(decidedIds)
        && old(asked).None? && old(active).None? && old(awaitingDecision).None?
        && (if old(envelope).None? then asked == Some(half) && sent.None? else asked.None? && envelope.None?)
    {
      if !turnOpen || turnEnded || half.id in decidedIds || asked.Some? || active.Some? || awaitingDecision.Some? {
        return false, None;
      }
      asked := Some(half);
      ok, sent := Activate();
    }

    method Receive(request: Request, closed: bool) returns (ok: bool, sent: Option<Response>)
      requires Valid()
      modifies this, challenges
      ensures Valid() && State() == ReceiveEnvelope(old(State()), request, closed).next
      ensures ok == ReceiveEnvelope(old(State()), request, closed).ok
      ensures sent == ReceiveEnvelope(old(State()), request, closed).sent
      ensures !old(turnOpen) || old(turnEnded) || closed || request.id in old(decidedIds) || old(awaitingDecision) == Some(request.id)
        ==> ok && sent.None? && State() == old(State())
      ensures ok && State() != old(State()) ==>
        && old(envelope).None? && old(active).None?
        && (if old(asked).None? then envelope == Some(request) && sent.None? else asked.None? && envelope.None?)
    {
      if !turnOpen || turnEnded || closed || request.id in decidedIds || awaitingDecision == Some(request.id) {
        return true, None;
      }
      if envelope.Some? || active.Some? {
        return false, None;
      }
      envelope := Some(request);
      ok, sent := Activate();
    }

    method AnswerQuestion(outcome: ApprovalOutcome) returns (ok: bool, sent: Option<Response>)
      requires Valid()
      modifies this
      ensures Valid() && State() == Answer(old(State()), outcome).next
      ensures ok <==> old(active).Some?
      ensures ok ==> sent == Some(Response(old(active).value.asked.id, outcome)) && awaitingDecision == Some(old(active).value.asked.id)
      ensures !ok ==> sent.None?
    {
      if active.None? {
        return false, None;
      }
      var id := active.value.asked.id;
      active := None;
      sent := Some(Response(id, outcome));
      awaitingDecision := Some(id);
      ok := true;
    }

    // Remember a decided id, within the bounds of one turn.
    method Record(id: string) returns (ok: bool)
      requires Valid()
      modifies this
      ensures Valid() && State() == RecordDecided(old(State()), id).next && ok == RecordDecided(old(State()), id).ok
    {
      if id in decidedIds {
        return true;
      }
      if |decidedIds| == MAX_DECIDED_IDS || decidedIdBytes + |id| > MAX_DECIDED_ID_BYTES {
        return false;
      }
      BytesPush(decidedIds, id);
      decidedIds, decidedIdBytes := decidedIds + [id], decidedIdBytes + |id|;
      ok := true;
    }

    method Decided(id: string) returns (ok: bool)
      requires Valid()
      modifies this
      ensures Valid() && State() == ObserveDecided(old(State()), id).next && ok == ObserveDecided(old(State()), id).ok
      ensures ok ==>
        && old(turnOpen) && !old(turnEnded) && id in decidedIds && old(decidedIds) <= decidedIds
        && (old(active).Some? ==> old(active).value.asked.id == id) && (old(asked).Some? ==> old(asked).value.id == id)
        && (old(awaitingDecision).Some? ==> old(awaitingDecision).value == id)
        && active.None? && asked.None? && awaitingDecision.None?
        && envelope == if old(envelope).Some? && old(envelope).value.id == id then None else old(envelope)
      ensures !ok ==> State() == old(State()) || Nothing()
    {
      hide Bytes, PoolOk;
      if !turnOpen || turnEnded {
        return false;
      }
      ok := Record(id);
      if !ok {
        return;
      }
      if (active.Some? && active.value.asked.id != id) || (asked.Some? && asked.value.id != id)
         || (awaitingDecision.Some? && awaitingDecision.value != id) {
        asked, envelope, active, awaitingDecision := None, None, None, None;
        return false;
      }
      active, asked, awaitingDecision := None, None, None;
      if envelope.Some? && envelope.value.id == id {
        envelope := None;
      }
    }

    method TurnEnd() returns (ok: bool)
      requires Valid()
      modifies this
      ensures Valid() && State() == ObserveTurnEnd(old(State())).next && ok == ObserveTurnEnd(old(State())).ok
    {
      if !turnOpen || turnEnded {
        return false;
      }
      turnEnded := true;
      ok := true;
    }

    method Finish(normal: bool) returns (ok: bool)
      requires Valid()
      modifies this
      ensures Valid() && State() == FinishTurn(old(State()), normal).next && ok == FinishTurn(old(State()), normal).ok
      ensures ok ==> old(turnOpen) && (normal ==> old(turnEnded) && old(Nothing())) && Nothing() && decidedIds == [] && !turnOpen
      ensures !ok ==> State() == old(State())
      ensures old(turnOpen) && !normal ==> ok
    {
      if !turnOpen
         || (normal && (!turnEnded || asked.Some? || envelope.Some? || active.Some? || awaitingDecision.Some?)) {
        return false;
      }
      asked, envelope, active, awaitingDecision := None, None, None, None;
      decidedIds, decidedIdBytes, turnOpen, turnEnded := [], 0, false, false;
      ok := true;
    }
  }

  // Two different draws never hand out the same challenge.
  lemma ChallengesAreDistinct(values: seq<nat>, i: nat, j: nat)
    requires |values| == MAX_APPROVAL_CHALLENGES && i < j < MAX_APPROVAL_CHALLENGES
    requires Draw(Pool(values, i)).Ok? && Draw(Pool(values, j)).Ok?
    ensures Draw(Pool(values, i)).value != Draw(Pool(values, j)).value
  {
    assert values[i] in values[..j];
  }
}
