/** The program form of the publisher: three arrays indexed by deck and a timer, updated in place, proved
    against the functions of module Publishing. */
module SyncPublishers {
  import opened Playback
  import opened Messages
  import opened Publishing

  class SyncPublisher {
    const pending: array<Option<Changes>>
    const lastSendMs: array<real>
    const hasSent: array<bool>
    var timer: bool
    var connected: bool
    var role: Role
    /** Everything handed to the transport. */
    var sent: seq<Sent>

    ghost predicate Valid() {
      pending.Length == lastSendMs.Length == hasSent.Length == 2
    }

    ghost function View(): Publisher
      requires Valid()
      reads this, pending, lastSendMs, hasSent
    {
      Publisher(Slot(pending[0], lastSendMs[0], hasSent[0]), Slot(pending[1], lastSendMs[1], hasSent[1]),
                timer, connected, role)
    }

    constructor ()
      ensures Valid() && View() == NEW_PUBLISHER && sent == []
      ensures fresh(pending) && fresh(lastSendMs) && fresh(hasSent)
    {
      pending := new Option<Changes>[2](_ => None);
      lastSendMs := new real[2](_ => 0.0);
      hasSent := new bool[2](_ => false);
      timer, connected, role, sent := false, false, Observer, [];
    }

    static function DeckIndex(d: DeckId): nat { if d == A then 0 else 1 }

    method SetConnected(value: bool)
      requires Valid()
      modifies this`connected
      ensures View() == old(View()).(connected := value)
    {
      connected := value;
    }

    method SetRole(value: Role)
      requires Valid()
      modifies this`role
      ensures View() == old(View()).(role := value)
    {
      role := value;
    }

    method Emit(i: nat, d: DeckId, now: real)
      requires Valid() && i == DeckIndex(d) && pending[i].Some?
      modifies this`sent, pending, lastSendMs, hasSent
      ensures (View(), sent) == (SendPending(old(View()), d, now).0, old(sent) + SendPending(old(View()), d, now).1)
    {
      sent := sent + [Sent(Delta(d, pending[i].value), now)];
      pending[i], lastSendMs[i], hasSent[i] := None, now, true;
    }

    method OnApplied(applied: Delta, source: Source, now: real)
      requires Valid()
      modifies this`sent, this`timer, pending, lastSendMs, hasSent
      ensures var o := Publishing.OnApplied(old(View()), applied, source, now);
        View() == o.0 && sent == old(sent) + o.1
    {
      if source != Local || !connected || role != Controller { return; }
      HandleLocalDelta(applied, now);
    }

    method HandleLocalDelta(applied: Delta, now: real)
      requires Valid()
      modifies this`sent, this`timer, pending, lastSendMs, hasSent
      ensures var o := Publishing.HandleLocalDelta(old(View()), applied, now);
        View() == o.0 && sent == old(sent) + o.1
    {
      var i := DeckIndex(applied.deck);
      pending[i] := Some(Coalesced(pending[i], applied.changes));
      MaybeSend(i, applied.deck, now);
    }

    method MaybeSend(i: nat, d: DeckId, now: real)
      requires Valid() && i == DeckIndex(d) && pending[i].Some?
      modifies this`sent, this`timer, pending, lastSendMs, hasSent
      ensures var o := Publishing.MaybeSend(old(View()), d, now);
        View() == o.0 && sent == old(sent) + o.1
    {
      if hasSent[i] && now - lastSendMs[i] < MIN_INTERVAL_MS {
        if !timer { timer := true; }
        return;
      }
      Emit(i, d, now);
    }

    method TimerCallback(now: real)
      requires Valid()
      modifies this`sent, this`timer, pending, lastSendMs, hasSent
      ensures var o := Drain(old(View()), now, false);
        View() == o.0 && sent == old(sent) + o.1
    {
      var anyStillPending := false;
      ghost var p1 := TickDeck(View(), A, now, false);
      for i := 0 to 2
        invariant i == 0 ==> View() == old(View()) && sent == old(sent) && !anyStillPending
        invariant i == 1 ==> View() == p1.0 && sent == old(sent) + p1.1 && anyStillPending == View().a.pending.Some?
        invariant i == 2 ==>
          && View() == TickDeck(p1.0, B, now, false).0
          && sent == old(sent) + (p1.1 + TickDeck(p1.0, B, now, false).1)
          && anyStillPending == (View().a.pending.Some? || View().b.pending.Some?)
      {
        if pending[i].Some? {
          if !hasSent[i] || now - lastSendMs[i] >= MIN_INTERVAL_MS {
            Emit(i, if i == 0 then A else B, now);
          } else {
            anyStillPending := true;
          }
        }
      }
      if !anyStillPending { timer := false; }
    }

    method FlushNow(now: real)
      requires Valid()
      modifies this`sent, this`timer, pending, lastSendMs, hasSent
      ensures var o := Drain(old(View()), now, true);
        View() == o.0 && sent == old(sent) + o.1
    {
      ghost var p1 := TickDeck(View(), A, now, true);
      for i := 0 to 2
        invariant i == 0 ==> View() == old(View()) && sent == old(sent)
        invariant i == 1 ==> View() == p1.0 && sent == old(sent) + p1.1
        invariant i == 2 ==> View() == TickDeck(p1.0, B, now, true).0
        invariant i == 2 ==> sent == old(sent) + (p1.1 + TickDeck(p1.0, B, now, true).1)
      {
        if pending[i].Some? {
          Emit(i, if i == 0 then A else B, now);
        }
      }
      timer := false;
    }
  }
}
