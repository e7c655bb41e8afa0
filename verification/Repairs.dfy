/** The hypotheses of controller agreement are exact: while a client is in control, the equation holds in every
    continuation of the run if and only if it holds now and no snapshot is on its way to the client or asked for. */
module Repairs {
  import opened Playback
  import opened Messages
  import opened Publishing
  import opened Rooms
  import opened Clients
  import opened Replication
  import opened Invariant
  import opened Agreement
  import opened Following
  import opened Divergence

  /** A longer run in whose new steps client k's control does not end. */
  ghost predicate Continues(
    cfg: Config, tr: seq<System>, steps: seq<Replication.Step>, tr': seq<System>, steps': seq<Replication.Step>, k: nat)
  {
    && IsRun(cfg, tr', steps') && |tr| == |steps| + 1 <= |tr'|
    && tr'[..|tr|] == tr && steps'[..|steps|] == steps
    && Kept(tr', steps', k, |steps|, |steps'|)
  }

  lemma Goes(cfg: Config, tr: seq<System>, steps: seq<Replication.Step>, step: Replication.Step, k: nat)
    returns (tr': seq<System>, steps': seq<Replication.Step>)
    requires IsRun(cfg, tr, steps) && Enabled(tr[|steps|], step) && !EndsControl(tr[|steps|], step, k)
    ensures tr' == tr + [Next(cfg, tr[|steps|], step)] && steps' == steps + [step]
    ensures Continues(cfg, tr, steps, tr', steps', k)
  {
    tr', steps' := Extended(cfg, tr, steps, step, Next(cfg, tr[|steps|], step));
    assert KeptAt(tr', steps', k, |steps|);
  }

  lemma GoesOn(
    cfg: Config, tr: seq<System>, steps: seq<Replication.Step>, tr1: seq<System>, steps1: seq<Replication.Step>,
    tr2: seq<System>, steps2: seq<Replication.Step>, k: nat)
    requires Continues(cfg, tr, steps, tr1, steps1, k) && Continues(cfg, tr1, steps1, tr2, steps2, k)
    ensures Continues(cfg, tr, steps, tr2, steps2, k)
  {
    assert tr2[..|tr|] == tr2[..|tr1|][..|tr|] && steps2[..|steps|] == steps2[..|steps1|][..|steps|];
    forall j | |steps| <= j < |steps2| ensures KeptAt(tr2, steps2, k, j) {
      if j < |steps1| {
        assert KeptAt(tr1, steps1, k, j);
        assert tr2[j] == tr2[..|tr1|][j] && steps2[j] == steps2[..|steps1|][j];
      }
    }
  }

  // ---------------------------------------------------------------- a snapshot on its way

  ghost predicate Awaits(ses: Session, y: nat) {
    && y < |ses.down| && ses.down[y].Snapshot? && DecksOk(ses.down[y].decks)
    && forall z :: 0 <= z < y ==> !ses.down[z].Snapshot?
  }

  /** Taking a snapshot that changes a deck breaks the equation for that deck. */
  lemma TakenSnapshot(cfg: Config, s: System, t: System, k: nat)
    requires Takes(cfg, s, ClientTakes(k), t) && HasControl(s, k) && CarriedIn(s, k, A)
    requires Awaits(s.sessions[k], 0) && s.sessions[k].down[0].decks[A].gain != s.sessions[k].client.a.gain
    ensures !CarriedIn(t, k, A)
  {
    var ses := s.sessions[k];
    ReceiveDeck(ses.client, ses.down[0], A);
    ResyncExact(ses.down[0].decks[A], ses.client.a);
    assert ses.up + [] == ses.up;
  }

  lemma TakenOther(cfg: Config, s: System, t: System, k: nat, y: nat)
    requires SystemOk(cfg, s) && Takes(cfg, s, ClientTakes(k), t) && HasControl(s, k)
    requires Awaits(s.sessions[k], y) && y > 0
    ensures k in t.sessions && Awaits(t.sessions[k], y - 1) && t.sessions[k].client.a == s.sessions[k].client.a
    ensures t.sessions[k].down[y - 1] == s.sessions[k].down[y]
  {
    var ses := s.sessions[k];
    ControlIsReal(cfg, s, k);
    assert !TouchesDecks(ses.down[0]);
    TakeCarries(ses.client, ses.down[0], A);
  }

  lemma {:induction false} SnapshotComes(
    cfg: Config, tr: seq<System>, steps: seq<Replication.Step>, k: nat, y: nat)
    returns (tr': seq<System>, steps': seq<Replication.Step>)
    requires IsRun(cfg, tr, steps) && HasControl(tr[|steps|], k) && Awaits(tr[|steps|].sessions[k], y)
    requires tr[|steps|].sessions[k].down[y].decks[A].gain != tr[|steps|].sessions[k].client.a.gain
    ensures Continues(cfg, tr, steps, tr', steps', k) && !CarriedIn(tr'[|steps'|], k, A)
    decreases y
  {
    var s := tr[|steps|];
    if !CarriedIn(s, k, A) {
      tr', steps' := tr, steps;
    } else {
      RunInOrder(cfg, tr, steps, |steps|);
      var t := Next(cfg, s, ClientTakes(k));
      var tr1, steps1 := Goes(cfg, tr, steps, ClientTakes(k), k);
      if y == 0 {
        TakenSnapshot(cfg, s, t, k);
        tr', steps' := tr1, steps1;
      } else {
        TakenOther(cfg, s, t, k, y);
        ControlStep(cfg, s, ClientTakes(k), t, k);
        tr', steps' := SnapshotComes(cfg, tr1, steps1, k, y - 1);
        GoesOn(cfg, tr, steps, tr1, steps1, tr', steps', k);
      }
    }
  }

  lemma {:induction false} SnapshotsMakeSense(v: View, ms: seq<Down>, y: nat, tight: bool)
    requires AllExpected(v, ms, tight) && y < |ms| && ms[y].Snapshot?
    ensures DecksOk(ms[y].decks)
    decreases y
  {
    if y > 0 { SnapshotsMakeSense(Observe(v, ms[0]), ms[1..], y - 1, tight); }
  }

  lemma {:induction false} FirstSnapshot(ms: seq<Down>, y: nat) returns (x: nat)
    requires y < |ms| && ms[y].Snapshot?
    ensures x <= y && ms[x].Snapshot? && forall z :: 0 <= z < x ==> !ms[z].Snapshot?
  {
    if z :| 0 <= z < y && ms[z].Snapshot? { x := FirstSnapshot(ms, z); } else { x := y; }
  }

  /** The client sets the gain to something else before the snapshot comes. */
  lemma ChangesBefore(cfg: Config, tr: seq<System>, steps: seq<Replication.Step>, k: nat, y: nat)
    returns (tr': seq<System>, steps': seq<Replication.Step>)
    requires IsRun(cfg, tr, steps) && HasControl(tr[|steps|], k)
    requires y < |tr[|steps|].sessions[k].down| && tr[|steps|].sessions[k].down[y].Snapshot?
    ensures Continues(cfg, tr, steps, tr', steps', k) && !CarriedIn(tr'[|steps'|], k, A)
  {
    RunInOrder(cfg, tr, steps, |steps|);
    var s := tr[|steps|];
    var ses := s.sessions[k];
    assert SessionOk(s.room, k, ses);
    var x := FirstSnapshot(ses.down, y);
    SnapshotsMakeSense(ViewOf(ses.client), ses.down, x, Fits(s.room));
    var g := if ses.down[x].decks[A].gain == 1.0 then 2.0 else 1.0;
    var change := Replication.Step.Changes(k, Delta(A, GainOf(g)), 0.0);
    var tr1, steps1 := Goes(cfg, tr, steps, change, k);
    var t := tr1[|steps1|];
    ControlStep(cfg, s, change, t, k);
    assert t.sessions[k].client.a.gain == g;
    tr', steps' := SnapshotComes(cfg, tr1, steps1, k, x);
    GoesOn(cfg, tr, steps, tr1, steps1, tr', steps', k);
  }

  // ---------------------------------------------------------------- a snapshot asked for

  /** Message x of the client is a request, and no release is ahead of it. */
  ghost predicate Requests(ses: Session, x: nat) {
    x < |ses.up| && ses.up[x] == RequestSnapshot && ReleaseControl !in ses.up[..x]
  }

  lemma NextOfRequest(ses: Session, x: nat)
    requires Requests(ses, x)
    ensures ses.up[0] != ReleaseControl
    ensures x > 0 ==> forall after: Session :: after.up == ses.up[1..] ==> Requests(after, x - 1)
  {
    if x > 0 { assert ses.up[..x] == [ses.up[0]] + ses.up[1..][..x - 1]; }
  }

  lemma RequestStep(cfg: Config, s: System, t: System, k: nat, x: nat)
    requires SystemOk(cfg, s) && Takes(cfg, s, ServerTakes(k, []), t) && HasControl(s, k) && Requests(s.sessions[k], x)
    ensures HasControl(t, k) && (x > 0 ==> Requests(t.sessions[k], x - 1))
    ensures x == 0 ==> var y := |s.sessions[k].down|; y < |t.sessions[k].down| && t.sessions[k].down[y].Snapshot?
  {
    NextOfRequest(s.sessions[k], x);
    RoomSends(cfg, s, k, [], t, k);
    if x == 0 { SentInControl(cfg, s, k, [], k); }
  }

  /** The room handles what the client sent, up to its request, and answers. */
  lemma {:induction false} RequestServed(cfg: Config, tr: seq<System>, steps: seq<Replication.Step>, k: nat, x: nat)
    returns (tr': seq<System>, steps': seq<Replication.Step>, y: nat)
    requires IsRun(cfg, tr, steps) && HasControl(tr[|steps|], k) && Requests(tr[|steps|].sessions[k], x)
    ensures Continues(cfg, tr, steps, tr', steps', k) && HasControl(tr'[|steps'|], k)
    ensures y < |tr'[|steps'|].sessions[k].down| && tr'[|steps'|].sessions[k].down[y].Snapshot?
    decreases x
  {
    RunInOrder(cfg, tr, steps, |steps|);
    var s := tr[|steps|];
    NextOfRequest(s.sessions[k], x);
    var tr1, steps1 := Goes(cfg, tr, steps, ServerTakes(k, []), k);
    RequestStep(cfg, s, tr1[|steps1|], k, x);
    if x == 0 {
      tr', steps', y := tr1, steps1, |s.sessions[k].down|;
    } else {
      tr', steps', y := RequestServed(cfg, tr1, steps1, k, x - 1);
      GoesOn(cfg, tr, steps, tr1, steps1, tr', steps', k);
    }
  }

  // ---------------------------------------------------------------- the exact condition

  lemma StillRequests(ses: Session)
    requires !Unrepaired(ses) && forall y :: 0 <= y < |ses.down| ==> !ses.down[y].Snapshot?
    ensures exists x: nat :: Requests(ses, x)
  {
    var x :| 0 <= x < |ses.up| && ses.up[x] == RequestSnapshot && ReleaseControl !in ses.up[..x];
    assert Requests(ses, x);
  }

  /** Otherwise there is a continuation, within the client's control, on which the equation fails. */
  lemma RepairUndoes(cfg: Config, tr: seq<System>, steps: seq<Replication.Step>, k: nat)
    returns (tr': seq<System>, steps': seq<Replication.Step>)
    requires IsRun(cfg, tr, steps) && HasControl(tr[|steps|], k) && !Unrepaired(tr[|steps|].sessions[k])
    ensures Continues(cfg, tr, steps, tr', steps', k) && !CarriedIn(tr'[|steps'|], k, A)
  {
    var ses := tr[|steps|].sessions[k];
    if y :| 0 <= y < |ses.down| && ses.down[y].Snapshot? {
      tr', steps' := ChangesBefore(cfg, tr, steps, k, y);
    } else {
      StillRequests(ses);
      var x: nat :| Requests(ses, x);
      var tr1, steps1, y := RequestServed(cfg, tr, steps, k, x);
      tr', steps' := ChangesBefore(cfg, tr1, steps1, k, y);
      GoesOn(cfg, tr, steps, tr1, steps1, tr', steps', k);
    }
  }

  /** The equation holds at the end of the run, for both decks. */
  ghost predicate Agreed(tr: seq<System>, steps: seq<Replication.Step>, k: nat)
    requires |tr| == |steps| + 1
  {
    forall d :: CarriedIn(tr[|steps|], k, d)
  }

  ghost predicate AlwaysAgreed(cfg: Config, tr: seq<System>, steps: seq<Replication.Step>, k: nat) {
    forall tr', steps' :: Continues(cfg, tr, steps, tr', steps', k) ==> Agreed(tr', steps', k)
  }

  /** Controller agreement, exactly: for a client in control the equation holds in every continuation within its control
      if and only if it holds now and no snapshot is on its way to it or asked for ahead of a release. */
  lemma AgreementIsExact(cfg: Config, tr: seq<System>, steps: seq<Replication.Step>, k: nat)
    requires IsRun(cfg, tr, steps) && HasControl(tr[|steps|], k)
    ensures AlwaysAgreed(cfg, tr, steps, k) <==> Agreed(tr, steps, k) && Unrepaired(tr[|steps|].sessions[k])
  {
    if Agreed(tr, steps, k) && Unrepaired(tr[|steps|].sessions[k]) {
      forall tr', steps' | Continues(cfg, tr, steps, tr', steps', k) ensures Agreed(tr', steps', k) {
        assert tr'[|steps|] == tr'[..|tr|][|steps|] == tr[|steps|];
        forall d ensures CarriedIn(tr'[|steps'|], k, d) {
          ControlCarries(cfg, tr', steps', k, |steps|, |steps'|, d);
        }
      }
    }
    assert Continues(cfg, tr, steps, tr, steps, k);
    if !Unrepaired(tr[|steps|].sessions[k]) {
      var tr', steps' := RepairUndoes(cfg, tr, steps, k);
      assert !Agreed(tr', steps', k);
    }
  }
}
