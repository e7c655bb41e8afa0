/** The program form of the connection layer: the closure state of `createServer`, updated in place by its
    event handlers, proved against the functions of module Connections. */
module ConnectionServers {
  import opened Playback
  import opened Messages
  import opened Rooms
  import opened RealMath
  import opened RateLimiting
  import opened Connections

  lemma HoldingGrows(h: Hub, done: set<nat>, k: nat)
    requires done <= h.records.Keys && k in h.records && k !in done
    ensures |Holding(h, done + {k})|
         == |Holding(h, done)| + if !h.records[k].ejected && h.records[k].pendingHello then 1 else 0
  {
    var r := h.records[k];
    var grown := if !r.ejected && r.pendingHello then Holding(h, done) + {k} else Holding(h, done);
    assert Holding(h, done + {k}) == grown;
  }

  lemma CloseOneMore(h: Hub, done: set<nat>, k: nat, code: int)
    requires done <= h.records.Keys && k in h.records && k !in done
    ensures k in CloseAll(h, done, code).records
    ensures Connections.Close(CloseAll(h, done, code), k, code) == CloseAll(h, done + {k}, code)
  {
    HoldingGrows(h, done, k);
    var l, r := Connections.Close(CloseAll(h, done, code), k, code), CloseAll(h, done + {k}, code);
    assert l.records == r.records;
    assert l.preHelloCount == r.preHelloCount;
  }

  class ConnectionServer {
    const setup: Setup
    var room: Room<nat>
    var records: map<nat, Record>
    var preHelloCount: int
    var nextKey: nat

    function View(): Hub
      reads this
    {
      Hub(room, records, preHelloCount, nextKey)
    }

    constructor (setup: Setup)
      ensures View() == NEW_HUB && this.setup == setup
    {
      this.setup := setup;
      room, records, preHelloCount, nextKey := NewRoom(), map[], 0, 0;
    }

    method ReleaseHelloWatch(k: nat)
      requires k in records
      modifies this
      ensures View() == Connections.ReleaseHelloWatch(old(View()), k)
    {
      if records[k].helloTimer { records := records[k := records[k].(helloTimer := false)]; }
      if records[k].pendingHello {
        records := records[k := records[k].(pendingHello := false)];
        preHelloCount := preHelloCount - 1;
      }
      assert records == Connections.ReleaseHelloWatch(old(View()), k).records;
    }

    method Close(k: nat, code: int)
      requires k in records
      modifies this
      ensures View() == Connections.Close(old(View()), k, code)
    {
      if records[k].ejected { return; }
      records := records[k := records[k].(ejected := true, ejectCode := code)];
      ReleaseHelloWatch(k);
    }

    method CloseEach(ks: set<nat>, code: int)
      requires ks <= records.Keys
      modifies this
      ensures View() == CloseAll(old(View()), ks, code)
    {
      var left := ks;
      assert ks - left == {};
      CloseNone(View(), code);
      while left != {}
        invariant left <= ks && View() == CloseAll(old(View()), ks - left, code)
        decreases |left|
      {
        var k :| k in left;
        CloseOneMore(old(View()), ks - left, k, code);
        assert ks - (left - {k}) == (ks - left) + {k};
        Close(k, code);
        left := left - {k};
      }
      assert ks - left == ks;
    }

    method RefillBucket(k: nat, now: real)
      requires k in records
      modifies this`records
      ensures View() == With(old(View()), k, old(records)[k].(bucket := Refill(setup.limit, old(records)[k].bucket, now)))
    {
      var b := records[k].bucket;
      var elapsed := now - b.lastRefillMs;
      if elapsed <= 0.0 {
        assert records == records[k := records[k].(bucket := Refill(setup.limit, b, now))];
        return;
      }
      b := b.(lastRefillMs := now);
      b := b.(tokens := Min(setup.limit.burst, b.tokens + Times(elapsed, setup.limit.rate)));
      records := records[k := records[k].(bucket := b)];
    }

    /** An error frame from this layer. */
    method Send(k: nat, code: ErrorCode)
      requires k in records
      modifies this`records
      ensures View() == Notice(old(View()), k, code)
    {
      records := records[k := records[k].(notices := records[k].notices + [code])];
    }

    /** False means the frame is dropped. A run of denied frames is answered once. */
    method Charge(k: nat, now: real) returns (served: bool)
      requires k in records
      modifies this
      ensures (View(), served) == ChargeRecord(setup, old(View()), k, now)
    {
      RefillBucket(k, now);
      var b := records[k].bucket;
      served := b.tokens >= 1.0;
      if served { b := b.(tokens := b.tokens - 1.0); }
      var reply := !served && b.limitedSince.None?;
      if served {
        b := b.(limitedSince := None);
      } else if reply {
        b := b.(limitedSince := Some(now));
      }
      records := records[k := records[k].(bucket := b)];
      if reply { Send(k, RateLimited); }
      assert records[k].notices == old(records)[k].notices + (if reply then [RateLimited] else []);
      assert View() == With(old(View()), k, old(records)[k].(
                              bucket := ChargeOne(setup.limit, old(records)[k].bucket, now).0,
                              notices := old(records)[k].notices + if reply then [RateLimited] else []));
      if b.limitedSince.Some? && now - b.limitedSince.value > setup.limit.banAfterMs {
        Close(k, CLOSE_RATE_LIMIT_BAN);
        return false;
      }
    }

    method CountInvalid(k: nat)
      requires k in records
      modifies this
      ensures View() == Connections.CountInvalid(old(View()), k)
    {
      records := records[k := records[k].(consecutiveInvalid := records[k].consecutiveInvalid + 1)];
      if records[k].consecutiveInvalid < MAX_CONSECUTIVE_INVALID { return; }
      Close(k, CLOSE_POLICY_VIOLATION);
    }

    method OnConnection(now: real)
      modifies this
      ensures View() == Open(setup, old(View()), now)
    {
      if preHelloCount >= setup.Ceiling() { return; }
      preHelloCount := preHelloCount + 1;
      records := records[nextKey := Record(None, true, true, NewBucket(setup.limit, now), 0, false, 0, [])];
      nextKey := nextKey + 1;
    }

    /** The room sees the message; those whose frames do not fit are closed as the room sends to them. */
    method HandleText(k: nat, msg: Up, draws: seq<ClientId>, tooLarge: set<nat>)
      requires k in records
      modifies this
      ensures View() == Handle(setup, old(View()), k, msg, draws, tooLarge)
    {
      var o := HandleMessage<nat>(setup.cfg, room, k, records[k].id, msg, draws);
      ApplyOutcome(k, o, tooLarge);
    }

    method ApplyOutcome(k: nat, o: Outcome<nat>, tooLarge: set<nat>)
      requires k in records
      modifies this
      ensures View() == AfterRoom(old(View()), k, o, tooLarge)
    {
      room, records := o.room, records[k := records[k].(id := o.id)];
      if o.verdict.Closed? { Close(k, o.verdict.closeCode); }
      CloseEach(Oversized(View(), o, k, tooLarge), CLOSE_INTERNAL_ERROR);
      if records[k].id.Some? { ReleaseHelloWatch(k); }
      SettleStrikes(k, o.verdict);
    }

    /** A handled message clears the strikes, a malformed one is a strike. */
    method SettleStrikes(k: nat, verdict: Verdict)
      requires k in records
      modifies this
      ensures View() == Settle(old(View()), k, verdict)
    {
      if verdict.Fine? {
        records := records[k := records[k].(consecutiveInvalid := 0)];
        return;
      }
      if verdict == Rejected(BadMessage) { CountInvalid(k); }
    }

    method OnMessage(k: nat, now: real, data: Data, draws: seq<ClientId>, tooLarge: set<nat>)
      requires k in records
      modifies this
      ensures View() == Connections.OnMessage(setup, old(View()), k, now, data, draws, tooLarge)
    {
      if records[k].ejected { return; }
      if data.Binary? {
        Close(k, CLOSE_POLICY_VIOLATION);
        return;
      }
      var served := Charge(k, now);
      if !served { return; }
      if data.Garbage? {
        if records[k].id.None? {
          Close(k, CLOSE_BAD_HANDSHAKE);
          return;
        }
        Send(k, BadMessage);
        CountInvalid(k);
        return;
      }
      HandleText(k, data.msg, draws, tooLarge);
    }

    method OnPingOrPong(k: nat, now: real)
      requires k in records
      modifies this
      ensures View() == OnControlFrame(setup, old(View()), k, now)
    {
      if records[k].ejected { return; }
      var _ := Charge(k, now);
    }

    method OnHelloTimer(k: nat)
      requires k in records && records[k].helloTimer
      modifies this
      ensures View() == OnHelloTimeout(old(View()), k)
    {
      records := records[k := records[k].(helloTimer := false)];
      if records[k].id.Some? { return; }
      Close(k, CLOSE_BAD_HANDSHAKE);
    }

    method OnClose(k: nat)
      requires k in records
      modifies this
      ensures View() == OnSocketClosed(old(View()), k)
    {
      ReleaseHelloWatch(k);
      var id := records[k].id;
      records := records - {k};
      room := HandleDisconnect(room, k, id).0;
    }

    method Shutdown()
      modifies this
      ensures View() == CloseAll(old(View()), old(records).Keys, CLOSE_GOING_AWAY)
    {
      CloseEach(records.Keys, CLOSE_GOING_AWAY);
    }
  }
}
