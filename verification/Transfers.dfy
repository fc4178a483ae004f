/**
 Data transfers over runs: an accepted message with R repetitions reports
 REPETITION_OK with transmission counts 1 to R, then one credit and OK with
 count R + 1, whatever is configured meanwhile.
 */
module Transfers {
  import opened Types
  import opened PacketCodec
  import opened Profiles
  import opened EventQueues
  import opened PacketQueues
  import opened Validation
  import opened Sessions
  import opened Devices
  import opened Handlers
  import opened Engines
  import opened Moves
  import opened Streams

  /** The REPETITION_OK notifications with transmission counts up to n, in order. */
  function RepetitionScript(id: uint32, sequence: uint16, n: byte): (r: seq<Packet>)
    ensures |r| == n
    ensures forall k: nat :: k < n ==> r[k] == TransferNtf(id, sequence, TRANSFER_REPETITION_OK, k + 1)
  {
    if n == 0 then []
    else RepetitionScript(id, sequence, n - 1) + [TransferNtf(id, sequence, TRANSFER_REPETITION_OK, n)]
  }

  /** The whole transfer of R repetitions; the last count wraps to a byte. */
  function TransferScript(id: uint32, sequence: uint16, repetitions: byte): seq<Packet> {
    RepetitionScript(id, sequence, repetitions)
    + [CreditNtf(id), TransferNtf(id, sequence, TRANSFER_OK, (repetitions + 1) % WRAP8)]
  }

  /** A transfer under way: transmissions made plus repetitions left make up the accepted count. */
  predicate Underway(s: Session, sequence: uint16, repetitions: byte) {
    s.transferring && s.transferSequence == sequence && s.txCount + s.repetitionsLeft == repetitions
  }

  predicate IsTransferTurn(turn: Option<Turn>, id: uint32) {
    turn.Some? && turn.value.event.kind.DataTransfer? && turn.value.event.session == id
  }

  /** What a step queues for a session's transfer, when it serves it. */
  function TransferOutput(setup: Setup, e: Engine, step: Step, id: uint32): seq<Packet> {
    var turn := StepTurn(setup, e, step);
    if !IsTransferTurn(turn, id) then []
    else
      var s := SessionBy(turn.value.dev, id);
      if s.None? || s.value.state != STATE_ACTIVE || !s.value.transferring then []
      else Advance(s.value).notes[..Min(Room(turn.value.dev), |Advance(s.value).notes|)]
  }

  /** When the step serves the session's transfer, what it reports fits the queue. */
  predicate HasRoom(setup: Setup, e: Engine, step: Step, id: uint32) {
    var turn := StepTurn(setup, e, step);
    IsTransferTurn(turn, id) && SessionBy(turn.value.dev, id).Some? ==>
      Room(turn.value.dev) >= |Advance(SessionBy(turn.value.dev, id).value).notes|
  }

  /** The transfer is under way before the run and after each step, and each serving finds room. */
  ghost predicate UnderwayThroughout(setup: Setup, e: Engine, steps: seq<Step>, id: uint32)
    decreases |steps|
  {
    && SessionBy(e.dev, id).Some? && SessionBy(e.dev, id).value.transferring
    && (steps != [] ==>
        HasRoom(setup, e, steps[0], id) && UnderwayThroughout(setup, Next(setup, e, steps[0]), steps[1..], id))
  }

  function AllOutput(setup: Setup, e: Engine, steps: seq<Step>, id: uint32): seq<Packet>
    decreases |steps|
  {
    if steps == [] then []
    else TransferOutput(setup, e, steps[0], id) + AllOutput(setup, Next(setup, e, steps[0]), steps[1..], id)
  }

  /** An accepted message starts a transfer with the count configured at that moment, and queues its first event. */
  lemma AcceptedTransferBegins(setup: Setup, d: Device, mv: Move)
    requires Structured(d) && Legal(setup.profile, d, mv) && mv.Send?
    requires Repetitions(d.sessions[mv.slot]) > 0 && |d.events| < MAX_EVENTS
    ensures var s, d' := d.sessions[mv.slot], Apply(setup, d, mv);
            && SessionBy(d', s.id) == Some(d'.sessions[mv.slot])
            && Underway(d'.sessions[mv.slot], mv.sequence, Repetitions(s)) && d'.sessions[mv.slot].txCount == 0
            && d'.events == d.events + [TransferEvent(setup.profile, s)]
  {
    hide StartVerdict;
    ApplyStructured(setup, d, mv);
    LookupSlot(Apply(setup, d, mv), d.sessions[mv.slot].id, mv.slot);
  }

  /** Serving anything but the session's transfer leaves the transfer alone. */
  lemma OtherTurnKeeps(setup: Setup, turn: Option<Turn>, id: uint32, s: Session)
    requires turn.Some? ==> SessionBy(turn.value.dev, id) == Some(s)
    requires !IsTransferTurn(turn, id)
    ensures SameTransfer(s, AfterTurn(setup, turn, id, s))
  {
    hide Emit;
    if turn.Some? && turn.value.event.session == id {
      EmitFrame(setup, s, Room(turn.value.dev), turn.value.dev.nextSequence);
    }
  }

  /** A transmission that does not end the transfer reports the next count and keeps the balance. */
  lemma AdvanceScript(h: Session, sequence: uint16, repetitions: byte)
    requires Underway(h, sequence, repetitions) && Advance(h).session.transferring
    ensures var t := Advance(h).session;
            && Underway(t, sequence, repetitions) && |Advance(h).notes| == 1
            && RepetitionScript(h.id, sequence, h.txCount) + Advance(h).notes ==
                RepetitionScript(h.id, sequence, t.txCount)
  {
  }

  lemma TransferTurn(setup: Setup, turn: Turn, id: uint32, h: Session)
    requires turn.event.kind.DataTransfer? && turn.event.session == id && SessionBy(turn.dev, id) == Some(h)
    ensures AfterTurn(setup, Some(turn), id, h) ==
              if h.state == STATE_ACTIVE && h.transferring then Advance(h).session else h
    ensures h.id == id
  {
    hide Advance;
  }

  /** The output of a step in terms of the session as the handler left it. */
  lemma OutputIs(setup: Setup, e: Engine, step: Step, id: uint32, h: Session)
    requires var turn := StepTurn(setup, e, step); turn.Some? ==> SessionBy(turn.value.dev, id) == Some(h)
    requires HasRoom(setup, e, step, id)
    ensures TransferOutput(setup, e, step, id) ==
              if IsTransferTurn(StepTurn(setup, e, step), id) && h.state == STATE_ACTIVE && h.transferring then
                Advance(h).notes
              else []
  {
    hide StepTurn;
    assert Advance(h).notes[..|Advance(h).notes|] == Advance(h).notes;
  }

  /** The turn of a step, from the session as the handler left it: nothing, or the next REPETITION_OK. */
  lemma TurnUnderway(setup: Setup, e: Engine, step: Step, id: uint32, h: Session, sequence: uint16, repetitions: byte)
    requires var turn := StepTurn(setup, e, step);
             && SessionBy(Next(setup, e, step).dev, id) == Some(AfterTurn(setup, turn, id, h))
             && (turn.Some? ==> SessionBy(turn.value.dev, id) == Some(h))
    requires h.id == id && Underway(h, sequence, repetitions)
             && SessionBy(Next(setup, e, step).dev, id).value.transferring
    requires HasRoom(setup, e, step, id)
    ensures var t := SessionBy(Next(setup, e, step).dev, id).value;
            && Underway(t, sequence, repetitions)
            && RepetitionScript(id, sequence, h.txCount) + TransferOutput(setup, e, step, id) ==
                RepetitionScript(id, sequence, t.txCount)
  {
    hide Next, StepTurn, Advance, RepetitionScript, HasRoom, TransferOutput, AfterTurn;
    var turn := StepTurn(setup, e, step);
    OutputIs(setup, e, step, id, h);
    assert RepetitionScript(id, sequence, h.txCount) + [] == RepetitionScript(id, sequence, h.txCount);
    if IsTransferTurn(turn, id) {
      TransferTurn(setup, turn.value, id, h);
      if h.state == STATE_ACTIVE && h.transferring { AdvanceScript(h, sequence, repetitions); }
    } else {
      OtherTurnKeeps(setup, turn, id, h);
    }
  }

  /** One step of a transfer that is under way before and after: nothing, or the next REPETITION_OK. */
  lemma NextUnderway(setup: Setup, e: Engine, step: Step, id: uint32, sequence: uint16, repetitions: byte)
    requires Structured(e.dev) && |e.outbound| <= MAX_OUTBOUND && ProperTransitions(setup.profile)
    requires SessionBy(e.dev, id).Some? && Underway(SessionBy(e.dev, id).value, sequence, repetitions)
    requires var t := SessionBy(Next(setup, e, step).dev, id); t.Some? && t.value.transferring
    requires HasRoom(setup, e, step, id)
    ensures var s, t := SessionBy(e.dev, id).value, SessionBy(Next(setup, e, step).dev, id).value;
            && Underway(t, sequence, repetitions)
            && RepetitionScript(id, sequence, s.txCount) + TransferOutput(setup, e, step, id) ==
                RepetitionScript(id, sequence, t.txCount)
  {
    hide Next, StepTurn, RepetitionScript, HasRoom, TransferOutput, AfterTurn;
    var s, t := SessionBy(e.dev, id).value, SessionBy(Next(setup, e, step).dev, id).value;
    var h := NextLookup(setup, e, step, id, s);
    TurnKeepsTransfer(setup, e, step, id, h.value);
    TurnUnderway(setup, e, step, id, h.value, sequence, repetitions);
  }

  /** Serving begins no transfer. */
  lemma TurnKeepsTransfer(setup: Setup, e: Engine, step: Step, id: uint32, h: Session)
    requires var turn := StepTurn(setup, e, step); turn.Some? ==> SessionBy(turn.value.dev, id) == Some(h)
    ensures AfterTurn(setup, StepTurn(setup, e, step), id, h).transferring ==> h.transferring
  {
    hide StepTurn, Emit;
    var turn := StepTurn(setup, e, step);
    if turn.Some? { EmitFrame(setup, h, Room(turn.value.dev), turn.value.dev.nextSequence); }
  }

  /** The script so far and the balance of counts hold at the end of every run in which the transfer stays under way. */
  lemma {:induction false} TransferFollowsScript(setup: Setup, e: Engine, steps: seq<Step>, id: uint32,
                                                 sequence: uint16, repetitions: byte)
    requires Structured(e.dev) && |e.outbound| <= MAX_OUTBOUND && ProperTransitions(setup.profile)
    requires UnderwayThroughout(setup, e, steps, id) && Underway(SessionBy(e.dev, id).value, sequence, repetitions)
    ensures var s, t := SessionBy(e.dev, id).value, SessionBy(Run(setup, e, steps).dev, id);
            && t.Some? && Underway(t.value, sequence, repetitions)
            && RepetitionScript(id, sequence, s.txCount) + AllOutput(setup, e, steps, id) ==
                RepetitionScript(id, sequence, t.value.txCount)
    decreases |steps|
  {
    hide Next, TransferOutput, Structured, HasRoom, RepetitionScript;
    var s := SessionBy(e.dev, id).value;
    if steps == [] {
      assert RepetitionScript(id, sequence, s.txCount) + [] == RepetitionScript(id, sequence, s.txCount);
    } else {
      NextStructured(setup, e, steps[0]);
      var e' := Next(setup, e, steps[0]);
      assert UnderwayThroughout(setup, e', steps[1..], id);
      NextUnderway(setup, e, steps[0], id, sequence, repetitions);
      TransferFollowsScript(setup, e', steps[1..], id, sequence, repetitions);
      var done, now := RepetitionScript(id, sequence, s.txCount), TransferOutput(setup, e, steps[0], id);
      var rest := AllOutput(setup, e', steps[1..], id);
      assert done + (now + rest) == (done + now) + rest;
    }
  }

  /** The step that ends a transfer by serving it: a credit, then OK, with every repetition already reported. */
  lemma LastTurnOutput(setup: Setup, e: Engine, step: Step, id: uint32, sequence: uint16, repetitions: byte)
    requires Structured(e.dev) && |e.outbound| <= MAX_OUTBOUND && ProperTransitions(setup.profile)
    requires SessionBy(e.dev, id).Some? && Underway(SessionBy(e.dev, id).value, sequence, repetitions)
    requires HasRoom(setup, e, step, id) && TransferOutput(setup, e, step, id) != []
    requires var t := SessionBy(Next(setup, e, step).dev, id); t.Some? && !t.value.transferring
    ensures SessionBy(e.dev, id).value.txCount == repetitions
    ensures TransferOutput(setup, e, step, id) ==
            [CreditNtf(id), TransferNtf(id, sequence, TRANSFER_OK, (repetitions + 1) % WRAP8)]
  {
    hide Next, StepTurn, HasRoom, TransferOutput, AfterTurn;
    var handed := NextLookup(setup, e, step, id, SessionBy(e.dev, id).value);
    var h := handed.value;
    OutputIs(setup, e, step, id, h);
    TransferTurn(setup, StepTurn(setup, e, step).value, id, h);
  }

  /** A whole transfer, from acceptance to its last turn, outputs exactly its script. */
  lemma TransferExact(setup: Setup, e: Engine, steps: seq<Step>, last: Step, id: uint32, sequence: uint16,
                      repetitions: byte)
    requires Structured(e.dev) && |e.outbound| <= MAX_OUTBOUND && ProperTransitions(setup.profile)
    requires UnderwayThroughout(setup, e, steps, id)
    requires Underway(SessionBy(e.dev, id).value, sequence, repetitions) && SessionBy(e.dev, id).value.txCount == 0
    requires var e' := Run(setup, e, steps);
             && HasRoom(setup, e', last, id) && TransferOutput(setup, e', last, id) != []
             && SessionBy(Next(setup, e', last).dev, id).Some?
             && !SessionBy(Next(setup, e', last).dev, id).value.transferring
    ensures AllOutput(setup, e, steps, id) + TransferOutput(setup, Run(setup, e, steps), last, id)
            == TransferScript(id, sequence, repetitions)
  {
    hide Next, TransferOutput, Structured, HasRoom, AllOutput, UnderwayThroughout;
    TransferFollowsScript(setup, e, steps, id, sequence, repetitions);
    RunStructured(setup, e, steps);
    LastTurnOutput(setup, Run(setup, e, steps), last, id, sequence, repetitions);
    assert RepetitionScript(id, sequence, 0) + AllOutput(setup, e, steps, id) == AllOutput(setup, e, steps, id);
  }

  /** The session as the handler of an accepted message with repetitions leaves it. */
  lemma MessageReceived(setup: Setup, e: Engine, req: Packet, other: Reply, mv: Move) returns (h: Session)
    requires Structured(e.dev) && |e.dev.events| < MAX_EVENTS && mv.Send? && mv == MoveOf(setup, e.dev, req, other)
    requires Repetitions(e.dev.sessions[mv.slot]) > 0
    ensures SessionBy(Receive(setup, e, req, other).engine.dev, e.dev.sessions[mv.slot].id) == Some(h)
    ensures h.id == e.dev.sessions[mv.slot].id && h.txCount == 0
    ensures Underway(h, mv.sequence, Repetitions(e.dev.sessions[mv.slot]))
  {
    hide Receive, MoveOf, Interval, Repetitions;
    MoveLegal(setup, e.dev, req, other);
    ApplyStructured(setup, e.dev, mv);
    ReceiveCore(setup, e, req, other);
    h := Apply(setup, e.dev, mv).sessions[mv.slot];
    LookupSlot(Apply(setup, e.dev, mv), e.dev.sessions[mv.slot].id, mv.slot);
  }

  /**
   From the DATA packet on, its own tick included: a message accepted with R repetitions
   configured and an event slot free outputs exactly the script of R.
   */
  lemma MessageExact(setup: Setup, e: Engine, req: Packet, other: Reply, mv: Move, steps: seq<Step>, last: Step)
    requires Structured(e.dev) && |e.outbound| <= MAX_OUTBOUND && ProperTransitions(setup.profile)
    requires |e.dev.events| < MAX_EVENTS && mv.Send? && mv == MoveOf(setup, e.dev, req, other)
    requires Repetitions(e.dev.sessions[mv.slot]) > 0
    requires var id, data := e.dev.sessions[mv.slot].id, SubmitPacket(req, other);
             HasRoom(setup, e, data, id) && UnderwayThroughout(setup, Next(setup, e, data), steps, id)
    requires var id, e' := e.dev.sessions[mv.slot].id, Run(setup, Next(setup, e, SubmitPacket(req, other)), steps);
             && HasRoom(setup, e', last, id) && TransferOutput(setup, e', last, id) != []
             && SessionBy(Next(setup, e', last).dev, id).Some?
             && !SessionBy(Next(setup, e', last).dev, id).value.transferring
    ensures var id, data := e.dev.sessions[mv.slot].id, SubmitPacket(req, other);
            var e' := Next(setup, e, data);
            TransferOutput(setup, e, data, id) + AllOutput(setup, e', steps, id) +
                TransferOutput(setup, Run(setup, e', steps), last, id)
            == TransferScript(id, mv.sequence, Repetitions(e.dev.sessions[mv.slot]))
  {
    hide Next, Receive, StepTurn, TransferOutput, Structured, HasRoom, AllOutput, MoveOf, AfterTurn, RepetitionScript,
        Repetitions;
    var id, data, r := e.dev.sessions[mv.slot].id, SubmitPacket(req, other), Repetitions(e.dev.sessions[mv.slot]);
    var e' := Next(setup, e, data);
    var h := MessageReceived(setup, e, req, other, mv);
    SubmitEffect(setup, e, req, other, id, h);
    NextStructured(setup, e, data);
    assert SessionBy(e'.dev, id).value.transferring;
    TurnUnderway(setup, e, data, id, h, mv.sequence, r);
    TransferFollowsScript(setup, e', steps, id, mv.sequence, r);
    RunStructured(setup, e', steps);
    LastTurnOutput(setup, Run(setup, e', steps), last, id, mv.sequence, r);
    NoneScripted(id, mv.sequence, TransferOutput(setup, e, data, id));
  }

  lemma NoneScripted(id: uint32, sequence: uint16, output: seq<Packet>)
    ensures RepetitionScript(id, sequence, 0) + output == output
  {
  }
}
