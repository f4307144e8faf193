/** What a turn emits, told from the events alone: its text pieces in order, and one truthful terminal event. */
module TurnReports {
  import opened Common
  import opened Turns

  // ----- told from the events

  /** A piece of a response, and whether it is text. */
  datatype Piece = Piece(bytes: nat, text: bool)

  /** The turn is running and nobody has aborted it. */
  predicate Listening(s: State, op: nat) {
    op in s.ops && s.ops[op].Counted() && !s.ops[op].aborted
  }

  function Total(pieces: seq<Piece>): nat {
    if pieces == [] then 0 else Total(pieces[..|pieces| - 1]) + pieces[|pieces| - 1].bytes
  }

  function Texts(pieces: seq<Piece>): seq<Message> {
    if pieces == [] then []
    else
      var last := pieces[|pieces| - 1];
      Texts(pieces[..|pieces| - 1]) + if last.text then [Text(last.bytes)] else []
  }

  /** The step brings a running turn a piece that its budget still allows after the pieces before it. */
  predicate Brings(s: State, e: Event, op: nat, before: seq<Piece>) {
    e.Delta? && e.op == op && Listening(s, op) && Total(before) + e.bytes <= s.ops[op].kind.policy.responseBytes
  }

  function NextPieces(s: State, e: Event, op: nat, before: seq<Piece>): seq<Piece> {
    if Brings(s, e, op, before) then before + [Piece(e.bytes, e.text)] else before
  }

  /** The pieces that were brought to the turn while it ran, in order. */
  function Pieces(events: seq<Event>, op: nat): seq<Piece>
    decreases |events|
  {
    if events == [] then []
    else
      var n := |events| - 1;
      NextPieces(Run(Init(), events[..n]), events[n], op, Pieces(events[..n], op))
  }

  /** The step ends the turn well: its response is complete while it runs unaborted. */
  predicate Completes(s: State, e: Event, op: nat) {
    e == Finish(op, true) && Listening(s, op)
  }

  ghost predicate Completed(events: seq<Event>, op: nat) {
    exists i :: 0 <= i < |events| && Completes(Run(Init(), events[..i]), events[i], op)
  }

  lemma CompletedLast(events: seq<Event>, op: nat)
    requires events != []
    ensures var n := |events| - 1;
      Completed(events, op) <==> Completed(events[..n], op) || Completes(Run(Init(), events[..n]), events[n], op)
  {
    var n := |events| - 1;
    forall i | 0 <= i < n ensures events[..n][..i] == events[..i] {
    }
  }

  // ----- what each step makes of it

  /** The operation has emitted these pieces' text and knows whether it was completed. */
  predicate Reported(o: Operation, pieces: seq<Piece>, won: bool) {
    if o.kind.Refresh? then pieces == [] && !won
    else
      && o.sent == Texts(pieces) + (if o.stage.Done? then [Terminal(won)] else [])
      && (o.stage.Storing? ==> pieces == [] && !won)
      && (o.stage.Running? ==> o.stage.bytes == Total(pieces) && !won)
      && (o.stage.Settled? || o.stage.Reading? || o.stage.Released? ==> o.stage.ok == won)
  }

  predicate Report(s: State, op: nat, pieces: seq<Piece>, won: bool) {
    if op in s.ops then Reported(s.ops[op], pieces, won) else pieces == [] && !won
  }

  lemma MorePieces(pieces: seq<Piece>, p: Piece)
    ensures Total(pieces + [p]) == Total(pieces) + p.bytes
    ensures Texts(pieces + [p]) == Texts(pieces) + if p.text then [Text(p.bytes)] else []
  {
    assert (pieces + [p])[..|pieces|] == pieces;
  }

  lemma AdmitReports(s: State, op: nat, o: Operation)
    requires op !in s.ops && o.stage.Storing? && o.sent == []
    ensures Report(Admit(s, op, o), op, [], false)
  {
  }

  lemma BeginReports(s: State, op: nat, pieces: seq<Piece>, won: bool)
    requires op in s.ops && Report(s, op, pieces, won)
    ensures Report(BeginStep(s, op), op, pieces, won)
  {
  }

  lemma FinishReports(s: State, op: nat, ok: bool, pieces: seq<Piece>, won: bool)
    requires op in s.ops && s.ops[op].stage.Running? && Report(s, op, pieces, won)
    ensures Report(EndTurn(s, op, ok), op, pieces, won || Completes(s, Finish(op, ok), op))
  {
  }

  lemma DeltaReports(s: State, op: nat, bytes: nat, text: bool, pieces: seq<Piece>, won: bool)
    requires op in s.ops && Report(s, op, pieces, won)
    ensures Report(DeltaStep(s, op, bytes, text), op, NextPieces(s, Delta(op, bytes, text), op, pieces), won)
  {
    MorePieces(pieces, Piece(bytes, text));
    var o := s.ops[op];
    if o.Counted() && !o.aborted && o.stage.bytes + bytes <= o.kind.policy.responseBytes {
      assert Reported(Charged(o, bytes, text), pieces + [Piece(bytes, text)], won);
    }
  }

  lemma ReadReports(s: State, op: nat, ok: bool, pieces: seq<Piece>, won: bool)
    requires op in s.ops && Report(s, op, pieces, won)
    ensures Report(ReadBackStep(s, op), op, pieces, won) && Report(ReadDoneStep(s, op, ok), op, pieces, won)
    ensures Report(DeliverStep(s, op), op, pieces, won) && Report(Abort(s, op), op, pieces, won)
  {
    assert s.ops[op].sent + [] == s.ops[op].sent;
  }

  /** A step that is about another operation leaves this one as it was. */
  lemma OthersReport(s: State, e: Event, op: nat)
    requires Known(s, e) && Target(s, e) != op
    ensures op in s.ops <==> op in Step(s, e).ops
    ensures op in s.ops ==> Step(s, e).ops[op] == s.ops[op]
  {
    StepBecomes(s, e);
    if op in Step(s, e).ops && op !in s.ops { OnlyTargetsAppear(s, e, op); }
  }

  lemma OnlyTargetsAppear(s: State, e: Event, op: nat)
    requires Known(s, e) && op in Step(s, e).ops && op !in s.ops
    ensures Target(s, e) == op
  {
  }

  lemma StepReports(s: State, e: Event, op: nat, pieces: seq<Piece>, won: bool)
    requires Report(s, op, pieces, won)
    ensures Report(Next(s, e), op, NextPieces(s, e, op, pieces), won || Completes(s, e, op))
  {
    if Known(s, e) {
      if Target(s, e) == op { TargetReports(s, e, op, pieces, won); } else { OthersReport(s, e, op); }
    }
  }

  lemma TargetReports(s: State, e: Event, op: nat, pieces: seq<Piece>, won: bool)
    requires Report(s, op, pieces, won) && Known(s, e) && Target(s, e) == op
    ensures Report(Step(s, e), op, NextPieces(s, e, op, pieces), won || Completes(s, e, op))
  {
    match e
    case RunTurn(_, owner, turn, credential, policy, aborted) =>
      AdmitReports(s, op, Operation(Turn(turn, policy), owner, credential, Storing, aborted, []));
    case RefreshModels(_, owner, credential, aborted) =>
      AdmitReports(s, op, Operation(Refresh, owner, credential, Storing, aborted, []));
    case Begin(_) => BeginReports(s, op, pieces, won);
    case Delta(_, bytes, text) => DeltaReports(s, op, bytes, text, pieces, won);
    case Finish(_, ok) => if s.ops[op].stage.Running? { FinishReports(s, op, ok, pieces, won); }
    case ReadBack(_) => ReadReports(s, op, true, pieces, won);
    case ReadDone(_, ok) => ReadReports(s, op, ok, pieces, won);
    case Deliver(_) => ReadReports(s, op, true, pieces, won);
    case CancelTurn(owner, turn) => if Key(owner, turn) in s.turns { ReadReports(s, op, true, pieces, won); }
    case RemoveCredential(owner, credential) => if Key(owner, credential) in s.identities { ReadReports(s, op, true, pieces, won); }
  }

  lemma {:induction false} EveryRunReports(events: seq<Event>, op: nat)
    ensures Report(Run(Init(), events), op, Pieces(events, op), Completed(events, op))
    decreases |events|
  {
    if events != [] {
      var n := |events| - 1;
      EveryRunReports(events[..n], op);
      RunLast(Init(), events[..n], events[n]);
      assert events[..n] + [events[n]] == events;
      CompletedLast(events, op);
      StepReports(Run(Init(), events[..n]), events[n], op, Pieces(events[..n], op), Completed(events[..n], op));
    }
  }

  /**
   In every run a turn has emitted exactly the text pieces that were brought to it while it ran, in order and within
   its budget, and, once it is done, one terminal event: a result if its response was completed while it ran unaborted,
   and an error otherwise.
   */
  lemma TurnsReportTheirOutcome(events: seq<Event>, op: nat)
    requires op in Run(Init(), events).ops && Run(Init(), events).ops[op].kind.Turn?
    ensures var o := Run(Init(), events).ops[op];
      o.sent == Texts(Pieces(events, op)) + if o.stage.Done? then [Terminal(Completed(events, op))] else []
  {
    EveryRunReports(events, op);
  }

  // ----- who aborts an operation

  /** The step aborts the operation: it starts aborted, or its turn is cancelled or its credential removed while it holds the lock. */
  predicate Aborts(s: State, e: Event, op: nat) {
    match e
    case RunTurn(o, owner, turn, credential, _, aborted) =>
      o == op && aborted && op !in s.ops && Key(owner, turn) !in s.turns && Key(owner, credential) !in s.identities
    case RefreshModels(o, owner, credential, aborted) =>
      o == op && aborted && op !in s.ops && Key(owner, credential) !in s.identities
    case CancelTurn(owner, turn) => Key(owner, turn) in s.turns && s.turns[Key(owner, turn)] == op
    case RemoveCredential(owner, credential) => Key(owner, credential) in s.identities && s.identities[Key(owner, credential)] == op
    case _ => false
  }

  predicate IsAborted(s: State, op: nat) {
    op in s.ops && s.ops[op].aborted
  }

  lemma StepAborts(s: State, e: Event, op: nat)
    requires Sound(s)
    ensures IsAborted(Next(s, e), op) <==> IsAborted(s, op) || Aborts(s, e, op)
  {
    if Known(s, e) {
      if Target(s, e) == op { TargetAborts(s, e, op); } else { OthersReport(s, e, op); }
    }
  }

  lemma TargetAborts(s: State, e: Event, op: nat)
    requires Known(s, e) && Target(s, e) == op
    requires forall k :: k in s.turns ==> s.turns[k] in s.ops
    requires forall k :: k in s.identities ==> s.identities[k] in s.ops
    ensures IsAborted(Step(s, e), op) <==> IsAborted(s, op) || Aborts(s, e, op)
  {
    match e
    case Begin(_) => BeginAborts(s, op);
    case Delta(_, bytes, text) => DeltaAborts(s, op, bytes, text);
    case _ =>
  }

  lemma BeginAborts(s: State, op: nat)
    requires op in s.ops
    ensures IsAborted(BeginStep(s, op), op) <==> IsAborted(s, op)
  {
  }

  lemma DeltaAborts(s: State, op: nat, bytes: nat, text: bool)
    requires op in s.ops
    ensures IsAborted(DeltaStep(s, op, bytes, text), op) <==> IsAborted(s, op)
  {
  }

  ghost predicate WasAborted(events: seq<Event>, op: nat) {
    exists i :: 0 <= i < |events| && Aborts(Run(Init(), events[..i]), events[i], op)
  }

  lemma WasAbortedLast(events: seq<Event>, op: nat)
    requires events != []
    ensures var n := |events| - 1;
      WasAborted(events, op) <==> WasAborted(events[..n], op) || Aborts(Run(Init(), events[..n]), events[n], op)
  {
    var n := |events| - 1;
    forall i | 0 <= i < n ensures events[..n][..i] == events[..i] {
    }
  }

  /** In every run an operation is aborted exactly when it started so, or its turn or credential was cancelled while it held the lock. */
  lemma {:induction false} AbortedExactly(events: seq<Event>, op: nat)
    ensures IsAborted(Run(Init(), events), op) <==> WasAborted(events, op)
    decreases |events|
  {
    if events != [] {
      var n := |events| - 1;
      AbortedExactly(events[..n], op);
      EveryRunIsSound(events[..n]);
      RunLast(Init(), events[..n], events[n]);
      assert events[..n] + [events[n]] == events;
      WasAbortedLast(events, op);
      StepAborts(Run(Init(), events[..n]), events[n], op);
    }
  }
}
