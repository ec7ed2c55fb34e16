/**
  What a `settleBatch` call makes of the shared keys when every command answers and nobody comes in
  between: from key, counter and marker as it finds them to how it leaves them.
 */
module NonceCall {
  import opened Options
  import opened Nonce

  /** The nonce the next call is handed: the counter, or the pending count after a crash or with no counter. */
  function NextNonce(s: State): int {
    if s.marker || s.counter.None? then s.pendingCount else s.counter.value
  }

  function WithLock(s: State, m: ManagerId, id: LockId): State {
    s.(lock := Some(id), used := s.used + {id}, lockIds := s.lockIds[m := id])
  }

  /** The key, unless it carries somebody else's id, and the manager's field are cleared. */
  function WithoutLock(s: State, m: ManagerId): State {
    s.(lock := if m in s.lockIds && s.lock == Some(s.lockIds[m]) then None else s.lock, lockIds := s.lockIds - {m})
  }

  /** The nonce is in hand, the marker clear and the counter one further. */
  function WithNonce(s: State, c: CallId, m: ManagerId, id: LockId): State {
    var n := NextNonce(s);
    WithLock(s, m, id).(marker := false, counter := Some(n + 1), calls := s.calls[c := Call(m, Handed(n), Some(n))])
  }

  /** The counter is the pending count, as it was, or one less; the marker is clear, the lock gone, the call over. */
  function AfterFailure(s: State, c: CallId, m: ManagerId, e: Error): State {
    WithoutLock(s, m).(
      counter := match e
                 case TooLow => Some(s.pendingCount)
                 case AlreadyKnown => s.counter
                 case _ => Some((if s.counter.Some? then s.counter.value else 0) - 1),
      marker := false,
      calls := s.calls - {c})
  }

  /** A whole call: the counter is one further, so is the chain if that was its next nonce, and all else is clear. */
  function AfterCall(s: State, m: ManagerId, id: LockId): State {
    var n := NextNonce(s);
    s.(counter := Some(n + 1), lock := None, marker := false, used := s.used + {id}, lockIds := s.lockIds - {m},
       pendingCount := if n == s.pendingCount then n + 1 else s.pendingCount)
  }

  /** What one command found and what it left. */
  type Move = (State, State)

  /**
    What the commands of handleFailure did, whoever came between them: the counter was SET to the
    count just read, left alone, or taken back by one; then the marker was cleared; then the lock was
    released and its id forgotten.
   */
  ghost predicate Handled(e: Error, me: ManagerId, moves: seq<Move>, end: State) {
    var n := |moves| - 1;
    && 0 <= n && Counted(e, moves[..n])
    && moves[n].1 == end && end.counter == moves[n].0.counter && end.marker == moves[n].0.marker
    && end.lock == WithoutLock(moves[n].0, me).lock && me !in end.lockIds
  }

  /** The same up to the marker. */
  ghost predicate Counted(e: Error, moves: seq<Move>) {
    var n := |moves| - 1;
    && n == (match e case TooLow => 2 case AlreadyKnown => 0 case _ => 1)
    && (e.TooLow? ==> moves[1].1.counter == Some(moves[0].0.pendingCount))
    && (e.Underpriced? || e.Other? ==>
          moves[0].1.counter == Some((if moves[0].0.counter.Some? then moves[0].0.counter.value else 0) - 1))
    && !moves[n].1.marker && moves[n].1.counter == moves[n].0.counter
  }

  // ----- The steps these are made of -----

  lemma OwesNothingYet(s: State, c: CallId)
    requires Inv(s) && c in s.calls
    ensures var p := s.calls[c].phase;
            p.Waiting? || p.Bumping? || p.Clearing? || p.Releasing? ==> s.calls[c].owed.None?
  {
    CallIsOk(s, c);
  }

  lemma ReleasingStep(s: State, c: CallId)
    requires c in s.calls && (s.calls[c].phase.Releasing? || s.calls[c].phase.Unlocking?)
    ensures var m := s.calls[c].manager;
            Step(s, c) == if s.calls[c].phase.Releasing? then WithoutLock(s, m).(calls := s.calls - {c})
                          else WithoutLock(To(s, c, Finishing), m)
  {
    assert s.calls[c].manager !in s.lockIds ==> s.lockIds - {s.calls[c].manager} == s.lockIds;
  }

  lemma ConfirmingStep(s: State, c: CallId)
    requires c in s.calls
    ensures s.calls[c].phase.Sent? ==> Step(s, c) == To(s.(marker := true), c, Recorded)
    ensures s.calls[c].phase.Recorded? ==> Step(s, c) == To(s, c, Confirmed)
    ensures s.calls[c].phase.Confirmed? ==> Step(s, c) == To(s.(marker := false), c, Unlocking)
    ensures s.calls[c].phase.Unlocking? ==> Step(s, c) == WithoutLock(To(s, c, Finishing), s.calls[c].manager)
  {
    if s.calls[c].phase.Unlocking? {
      ReleasingStep(s, c);
    }
  }

  /** The call's transaction is mined and its lock gone; only the rest of settleBatch is left. */
  function WithReceipt(s: State, c: CallId, m: ManagerId, id: LockId): State {
    var n, held := NextNonce(s), WithNonce(s, c, m, id);
    WithoutLock(held.(calls := held.calls[c := Call(m, Finishing, None)]), m).(
      marker := false, pendingCount := if n == s.pendingCount then n + 1 else s.pendingCount)
  }

  lemma WholeCall(s: State, c: CallId, m: ManagerId, id: LockId)
    requires c !in s.calls
    ensures var done := WithReceipt(Next(s, Begin(c, m)), c, m, id);
            Enabled(done, Advance(c)) && Next(done, Advance(c)) == AfterCall(s, m, id)
  {
    var calls' := s.calls[c := Call(m, Waiting, None)][c := Call(m, Finishing, None)];
    assert calls' - {c} == s.calls;
    assert s.lockIds[m := id] - {m} == s.lockIds - {m};
  }

  lemma Starts(s: State, c: CallId, m: ManagerId)
    requires Inv(s) && c !in s.calls
    requires forall d {:trigger s.calls[d]} :: d in s.calls ==> s.calls[d].manager != m
    ensures Enabled(s, Begin(c, m)) && Inv(Next(s, Begin(c, m)))
    ensures var s' := Next(s, Begin(c, m));
            && c in s'.calls && s'.calls[c] == Call(m, Waiting, None) && NextNonce(s') == NextNonce(s)
            && s'.lock == s.lock && s'.used == s.used
  {
    ActionKeepsInv(s, Begin(c, m));
  }

  lemma ReadingStep(s: State, c: CallId)
    requires c in s.calls
    ensures s.calls[c].phase.Reading? ==>
              Step(s, c) == To(s, c, if s.counter.Some? then Bumping(s.counter.value) else Resetting)
    ensures s.calls[c].phase.Locked? ==> Step(s, c) == To(s, c, if s.marker then Recovering else Reading)
    ensures s.calls[c].phase.Recovering? ==> Step(s, c) == To(s.(marker := false), c, Resetting)
    ensures s.calls[c].phase.Resetting? ==> Step(s, c) == To(s, c, Writing(s.pendingCount))
    ensures s.calls[c].phase.Writing? ==>
              Step(s, c) == To(s.(counter := Some(s.calls[c].phase.count)), c, Reading)
  {
  }

  lemma ClearingStep(s: State, c: CallId)
    requires c in s.calls && s.calls[c].phase.Clearing?
    ensures Step(s, c) == To(s.(marker := false), c, Releasing)
  {
  }

  lemma CountingStep(s: State, c: CallId)
    requires c in s.calls && (s.calls[c].phase.Failing? || s.calls[c].phase.FailWriting?)
    ensures var call := s.calls[c];
            var settled := s.calls[c := Call(call.manager, Clearing, None)];
            Step(s, c) ==
            if call.phase.FailWriting? then s.(counter := Some(call.phase.at), calls := settled)
            else match call.phase.e
                 case TooLow => To(s, c, FailWriting(s.pendingCount))
                 case AlreadyKnown => s.(calls := settled)
                 case _ => s.(counter := Some((if s.counter.Some? then s.counter.value else 0) - 1), calls := settled)
  {
  }
}
