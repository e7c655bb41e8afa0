/** Notification that listeners may re-enter: the crossfader of client/src/state/CrossfaderState.cpp on the token
    list of client/src/state/TokenListenerList.h.  Listeners are arbitrary code; what they do, over all of their
    invocations, is a finite script of actions, which each invocation reads up to the next `Return`. */
module Listeners {
  import opened Playback

  datatype Action = Set(value: real) | Add | Remove(token: nat) | Return

  /** `tokens` are the registered listeners in order.  `heard`, `roster` and `changes` record what happened: the
      value each listener was last given, who was registered when the position last changed, and how often it
      has changed. */
  datatype State = State(
    position: real, tokens: seq<nat>, nextToken: nat, script: seq<Action>,
    heard: map<nat, real>, roster: seq<nat>, changes: nat)

  const NEW_STATE := State(0.5, [], 0, [], map[], [], 0)

  function Added(s: State): State { s.(tokens := s.tokens + [s.nextToken], nextToken := s.nextToken + 1) }

  function Dropped(tokens: seq<nat>, token: nat): seq<nat> {
    if tokens == [] then []
    else (if tokens[0] == token then [] else [tokens[0]]) + Dropped(tokens[1..], token)
  }

  function Removed(s: State, token: nat): State { s.(tokens := Dropped(s.tokens, token)) }

  /** The first registered token above the given one. */
  function FirstAbove(tokens: seq<nat>, token: nat): (r: Option<nat>)
    ensures r.Some? ==> r.value > token && r.value in tokens
    ensures r.None? ==> forall t :: t in tokens ==> t <= token
  {
    if tokens == [] then None
    else
      assert forall t :: t in tokens ==> t == tokens[0] || t in tokens[1..];
      if tokens[0] > token then Some(tokens[0]) else FirstAbove(tokens[1..], token)
  }

  function Above(tokens: seq<nat>, token: nat): nat {
    if tokens == [] then 0 else (if tokens[0] > token then 1 else 0) + Above(tokens[1..], token)
  }

  lemma {:induction false} AboveShrinks(tokens: seq<nat>, token: nat, next: nat)
    requires token < next && next in tokens
    ensures Above(tokens, next) < Above(tokens, token)
  {
    AboveMonotone(tokens[1..], token, next);
    if tokens[0] != next { AboveShrinks(tokens[1..], token, next); }
  }

  lemma {:induction false} AboveMonotone(tokens: seq<nat>, token: nat, next: nat)
    requires token <= next
    ensures Above(tokens, next) <= Above(tokens, token)
  {
    if tokens != [] { AboveMonotone(tokens[1..], token, next); }
  }

  // ---------------------------------------------------------------- the re-entrant walk

  function SetPosition(s: State, v: real): (r: State)
    ensures |r.script| <= |s.script|
    decreases |s.script|, 2, 0
  {
    var clamped := Clamp(v, 0.0, 1.0);
    if clamped == s.position then s
    else
      var s1 := s.(position := clamped, roster := s.tokens, changes := s.changes + 1);
      if s1.tokens == [] then s1 else Walk(s1, s1.tokens[0], clamped)
  }

  /** The listener is given the position as it is now. */
  function Told(s: State, token: nat): State { s.(heard := s.heard[token := s.position]) }

  function Visit(s: State, token: nat): (r: State)
    ensures s.script == [] ==> r.script == [] && r.tokens == s.tokens
    ensures s.script != [] && token in s.tokens ==> |r.script| < |s.script|
    ensures token !in s.tokens ==> r == s
    decreases |s.script|, 0, 1
  {
    if token in s.tokens then Callback(Told(s, token)) else s
  }

  /** From `token` on, each registered listener in turn, until the position is no longer the one this walk
      announces. */
  function Walk(s: State, token: nat, target: real): (r: State)
    ensures |r.script| <= |s.script|
    decreases |s.script|, 1, Above(s.tokens, token)
  {
    var s1 := Visit(s, token);
    var next := FirstAbove(s1.tokens, token);
    if s1.position != target || next.None? then s1
    else
      AboveShrinks(s1.tokens, token, next.value);
      Walk(s1, next.value, target)
  }

  /** One invocation of a listener. */
  function Callback(s: State): (r: State)
    ensures s.script == [] ==> r == s
    ensures s.script != [] ==> |r.script| < |s.script|
    decreases |s.script|, 0, 0
  {
    if s.script == [] then s
    else
      var rest := s.(script := s.script[1..]);
      match s.script[0]
      case Return => rest
      case Set(v) => Callback(SetPosition(rest, v))
      case Add => Callback(Added(rest))
      case Remove(token) => Callback(Removed(rest, token))
  }

  // ---------------------------------------------------------------- what every action keeps

  ghost predicate Sorted(tokens: seq<nat>) {
    forall i, j :: 0 <= i < j < |tokens| ==> tokens[i] < tokens[j]
  }

  ghost predicate Ok(s: State) {
    && Sorted(s.tokens)
    && (forall t :: t in s.tokens ==> t < s.nextToken)
    && (forall t :: t in s.roster ==> t < s.nextToken)
  }

  /** Tokens are never handed out twice: a listener registered later was registered before, or is new. */
  ghost predicate Later(s: State, r: State) {
    && s.nextToken <= r.nextToken && s.changes <= r.changes
    && (forall t :: t in r.tokens && t < s.nextToken ==> t in s.tokens)
  }

  ghost predicate Current(s: State, t: nat) { t in s.heard && s.heard[t] == s.position }

  /** Every listener that was registered at the last change, and still is, has the position. */
  ghost predicate Settled(s: State) {
    forall t :: t in s.roster && t in s.tokens ==> Current(s, t)
  }

  /** The walk has told everyone below `token`. */
  ghost predicate Reached(s: State, token: nat) {
    forall t :: t in s.roster && t in s.tokens && t < token ==> Current(s, t)
  }

  /** Nothing was announced in between. */
  ghost predicate Quiet(s: State, r: State) {
    r.position == s.position && r.heard == s.heard && r.roster == s.roster && r.changes == s.changes
  }

  lemma {:induction false} DroppedTokens(tokens: seq<nat>, token: nat)
    ensures forall t :: t in Dropped(tokens, token) <==> t in tokens && t != token
    ensures Sorted(tokens) ==> Sorted(Dropped(tokens, token))
  {
    if tokens != [] {
      DroppedTokens(tokens[1..], token);
      if Sorted(tokens) {
        var rest := Dropped(tokens[1..], token);
        assert Sorted(tokens[1..]);
        forall j | 0 <= j < |rest| ensures tokens[0] < rest[j] {
          assert rest[j] in Dropped(tokens[1..], token);
          assert rest[j] in tokens[1..];
        }
      }
    }
  }

  lemma {:induction false} FirstAboveIsNext(tokens: seq<nat>, token: nat)
    requires Sorted(tokens) && FirstAbove(tokens, token).Some?
    ensures forall t :: t in tokens && token < t ==> FirstAbove(tokens, token).value <= t
  {
    assert forall t :: t in tokens ==> t == tokens[0] || t in tokens[1..];
    assert Sorted(tokens[1..]);
    if tokens[0] <= token { FirstAboveIsNext(tokens[1..], token); }
  }

  lemma AddedKeeps(s: State)
    requires Ok(s)
    ensures Ok(Added(s)) && Later(s, Added(s)) && (Settled(s) ==> Settled(Added(s)))
  {
    var tokens := s.tokens + [s.nextToken];
    forall i, j | 0 <= i < j < |tokens| ensures tokens[i] < tokens[j] {
      if j == |s.tokens| { assert s.tokens[i] in s.tokens; }
    }
  }

  lemma SettledLater(s: State, r: State)
    requires Ok(s) && Settled(s) && Quiet(s, r) && Later(s, r)
    ensures Settled(r)
  {}

  /** A listener's invocation either announces nothing, or leaves everything announced. */
  lemma {:induction false} CallbackSettles(s: State)
    requires Ok(s)
    ensures var r := Callback(s);
      Ok(r) && Later(s, r) && (Quiet(s, r) || (r.changes > s.changes && Settled(r)))
    decreases |s.script|, 0, 1
  {
    if s.script != [] {
      var rest := s.(script := s.script[1..]);
      match s.script[0]
      case Return =>
      case Set(v) =>
        SetSettles(rest, v);
        CallbackAfter(s, SetPosition(rest, v));
      case Add =>
        AddedKeeps(rest);
        CallbackAfter(s, Added(rest));
      case Remove(token) =>
        DroppedTokens(rest.tokens, token);
        CallbackAfter(s, Removed(rest, token));
    }
  }

  lemma {:induction false} CallbackAfter(s: State, s1: State)
    requires |s1.script| < |s.script| && Ok(s1) && Later(s, s1)
    requires Quiet(s, s1) || (s1.changes > s.changes && Settled(s1))
    ensures var r := Callback(s1);
      Ok(r) && Later(s, r) && (Quiet(s, r) || (r.changes > s.changes && Settled(r)))
    decreases |s.script|, 0, 0
  {
    CallbackSettles(s1);
    var r := Callback(s1);
    if Quiet(s1, r) && Settled(s1) { SettledLater(s1, r); }
  }

  lemma {:induction false} SetSettles(s: State, v: real)
    requires Ok(s)
    ensures var r := SetPosition(s, v);
      Ok(r) && Later(s, r) && (r == s || (r.changes > s.changes && Settled(r)))
    decreases |s.script|, 2, 0
  {
    var clamped := Clamp(v, 0.0, 1.0);
    if clamped != s.position && s.tokens != [] {
      var s1 := s.(position := clamped, roster := s.tokens, changes := s.changes + 1);
      WalkSettles(s1, s1.tokens[0], clamped);
    }
  }

  lemma {:induction false} WalkSettles(s: State, token: nat, target: real)
    requires Ok(s) && s.position == target && Reached(s, token)
    ensures var r := Walk(s, token, target);
      Ok(r) && Later(s, r) && Settled(r)
    decreases |s.script|, 1, Above(s.tokens, token)
  {
    var s1 := Visit(s, token);
    VisitReaches(s, token);
    var next := FirstAbove(s1.tokens, token);
    if s1.position == target && next.Some? {
      FirstAboveIsNext(s1.tokens, token);
      AboveShrinks(s1.tokens, token, next.value);
      WalkSettles(s1, next.value, target);
    }
  }

  lemma {:induction false} VisitReaches(s: State, token: nat)
    requires Ok(s) && Reached(s, token)
    ensures var s1 := Visit(s, token);
      && Ok(s1) && Later(s, s1) && (s1.position != s.position ==> Settled(s1))
      && Reached(s1, token + 1)
    decreases |s.script|, 0, 2
  {
    if token in s.tokens { CallbackSettles(Told(s, token)); }
  }

  // ---------------------------------------------------------------- the results

  /** What happens from outside: any sequence of calls, each with its own script for the callbacks. */
  datatype Outer = Outer(action: Action, script: seq<Action>)

  function Perform(s: State, o: Outer): State {
    var t := s.(script := o.script);
    match o.action
    case Set(v) => SetPosition(t, v)
    case Add => Added(t)
    case Remove(token) => Removed(t, token)
    case Return => t
  }

  function PerformAll(s: State, os: seq<Outer>): State {
    if os == [] then s else Perform(PerformAll(s, os[..|os| - 1]), os[|os| - 1])
  }

  /** Whatever listeners do when they are called, whenever an outermost call has returned, every listener that was
      registered at the last change and still is was last given the current position. */
  lemma {:induction false} AlwaysSettled(os: seq<Outer>)
    ensures var s := PerformAll(NEW_STATE, os); Ok(s) && Settled(s)
    decreases |os|
  {
    if os != [] {
      AlwaysSettled(os[..|os| - 1]);
      var s, o := PerformAll(NEW_STATE, os[..|os| - 1]), os[|os| - 1];
      var t := s.(script := o.script);
      assert Settled(t);
      match o.action
      case Set(v) => SetSettles(t, v);
      case Add => AddedKeeps(t);
      case Remove(token) => DroppedTokens(t.tokens, token);
      case Return =>
    }
  }

  /** The listeners one walk calls, in order. */
  function Visits(s: State, token: nat, target: real): seq<nat>
    decreases |s.script|, 1, Above(s.tokens, token)
  {
    var s1 := Visit(s, token);
    var next := FirstAbove(s1.tokens, token);
    (if token in s.tokens then [token] else [])
    + if s1.position != target || next.None? then []
      else
        AboveShrinks(s1.tokens, token, next.value);
        Visits(s1, next.value, target)
  }

  /** A walk calls listeners in the order of their registration, none of them twice. */
  lemma {:induction false} VisitsIncrease(s: State, token: nat, target: real)
    ensures Sorted(Visits(s, token, target))
    ensures forall t :: t in Visits(s, token, target) ==> t >= token
    decreases |s.script|, 1, Above(s.tokens, token)
  {
    var s1 := Visit(s, token);
    var next := FirstAbove(s1.tokens, token);
    if s1.position == target && next.Some? {
      AboveShrinks(s1.tokens, token, next.value);
      VisitsIncrease(s1, next.value, target);
      var rest := Visits(s1, next.value, target);
      SortedPrepended(token, next.value, rest);
    }
  }

  lemma SortedPrepended(token: nat, next: nat, rest: seq<nat>)
    requires Sorted(rest) && token < next && forall t :: t in rest ==> t >= next
    ensures Sorted([token] + rest) && forall t :: t in [token] + rest ==> t >= token
  {
    forall i, j | 0 <= i < j < |rest| + 1 ensures ([token] + rest)[i] < ([token] + rest)[j] {
      if i == 0 { assert rest[j - 1] in rest; }
    }
  }

  /** A walk that is not superseded misses nobody who stays registered. */
  lemma {:induction false} NobodyMissed(s: State, token: nat, target: real, t: nat)
    requires Ok(s) && s.position == target && Walk(s, token, target).position == target
    requires t >= token && t in s.tokens && t in Walk(s, token, target).tokens
    ensures t in Visits(s, token, target)
    decreases |s.script|, 1, Above(s.tokens, token)
  {
    var s1 := Visit(s, token);
    VisitKeeps(s, token);
    var next := FirstAbove(s1.tokens, token);
    if s1.position == target && next.Some? {
      AboveShrinks(s1.tokens, token, next.value);
      FirstAboveIsNext(s1.tokens, token);
      WalkKeeps(s1, next.value, target);
      if t != token { NobodyMissed(s1, next.value, target, t); }
    }
  }

  lemma VisitKeeps(s: State, token: nat)
    requires Ok(s)
    ensures Ok(Visit(s, token)) && Later(s, Visit(s, token))
  {
    if token in s.tokens { CallbackSettles(Told(s, token)); }
  }

  lemma {:induction false} WalkKeeps(s: State, token: nat, target: real)
    requires Ok(s)
    ensures Ok(Walk(s, token, target)) && Later(s, Walk(s, token, target))
    decreases |s.script|, 1, Above(s.tokens, token)
  {
    var s1 := Visit(s, token);
    VisitKeeps(s, token);
    var next := FirstAbove(s1.tokens, token);
    if s1.position == target && next.Some? {
      AboveShrinks(s1.tokens, token, next.value);
      WalkKeeps(s1, next.value, target);
    }
  }

  // ---------------------------------------------------------------- which position that is

  /** What the last of these actions to set the position set it to, moved into range; `position` if none does. */
  function LastSet(actions: seq<Action>, position: real): real {
    if actions == [] then position
    else
      var last := actions[|actions| - 1];
      if last.Set? then (if last.value < 0.0 then 0.0 else if last.value > 1.0 then 1.0 else last.value)
      else LastSet(actions[..|actions| - 1], position)
  }

  lemma {:induction false} LastSetConcat(xs: seq<Action>, ys: seq<Action>, position: real)
    ensures LastSet(xs + ys, position) == LastSet(ys, LastSet(xs, position))
    decreases |ys|
  {
    if ys == [] {
      assert xs + ys == xs;
    } else {
      assert (xs + ys)[..|xs + ys| - 1] == xs + ys[..|ys| - 1];
      LastSetConcat(xs, ys[..|ys| - 1], position);
    }
  }

  /** From s to r, starting at this position, listeners have done what the script says up to where it is now. */
  ghost predicate Follows(s: State, position: real, r: State) {
    && |r.script| <= |s.script| && s.script[|s.script| - |r.script|..] == r.script
    && r.position == LastSet(s.script[..|s.script| - |r.script|], position)
  }

  lemma FollowsNothing(s: State, position: real, r: State)
    requires r.script == s.script && r.position == position
    ensures Follows(s, position, r)
  {}

  lemma FollowsOn(s: State, position: real, m: State, r: State)
    requires Follows(s, position, m) && Follows(m, m.position, r)
    ensures Follows(s, position, r)
  {
    var i, j := |s.script| - |m.script|, |m.script| - |r.script|;
    assert s.script[..i + j] == s.script[..i] + m.script[..j];
    LastSetConcat(s.script[..i], m.script[..j], position);
  }

  /** An action that is read, and then what follows from the position it leaves. */
  lemma FollowsAction(s: State, position: real, m: State, r: State)
    requires s.script != [] && m.script == s.script[1..] && position == LastSet([s.script[0]], s.position)
    requires Follows(m, position, r)
    ensures Follows(s, s.position, r)
  {
    var j := |m.script| - |r.script|;
    assert s.script[..1 + j] == [s.script[0]] + m.script[..j];
    LastSetConcat([s.script[0]], m.script[..j], s.position);
  }

  lemma {:induction false} CallbackFollows(s: State)
    ensures Follows(s, s.position, Callback(s))
    decreases |s.script|, 0, 0
  {
    if s.script == [] {
      FollowsNothing(s, s.position, s);
    } else {
      var rest := s.(script := s.script[1..]);
      var r := Callback(s);
      assert [s.script[0]][..0] == [];
      match s.script[0]
      case Return =>
        FollowsNothing(rest, s.position, rest);
        FollowsAction(s, s.position, rest, r);
      case Set(v) =>
        SetFollows(rest, v);
        var m := SetPosition(rest, v);
        CallbackFollows(m);
        FollowsOn(rest, LastSet([s.script[0]], s.position), m, r);
        FollowsAction(s, LastSet([s.script[0]], s.position), rest, r);
      case Add =>
        CallbackFollows(Added(rest));
        FollowsAction(s, s.position, Added(rest), r);
      case Remove(token) =>
        CallbackFollows(Removed(rest, token));
        FollowsAction(s, s.position, Removed(rest, token), r);
    }
  }

  lemma {:induction false} WalkFollows(s: State, token: nat, target: real)
    ensures Follows(s, s.position, Walk(s, token, target))
    decreases |s.script|, 1, Above(s.tokens, token)
  {
    var s1 := Visit(s, token);
    if token in s.tokens { CallbackFollows(Told(s, token)); } else { FollowsNothing(s, s.position, s); }
    var next := FirstAbove(s1.tokens, token);
    if s1.position == target && next.Some? {
      AboveShrinks(s1.tokens, token, next.value);
      WalkFollows(s1, next.value, target);
      FollowsOn(s, s.position, s1, Walk(s, token, target));
    }
  }

  /** Setting the position sets it to the value asked for, moved into the range from 0 to 1, and from there on it is what
      the last of the listeners' own calls set: what everybody is left with is the last position anybody set. */
  lemma {:induction false} SetFollows(s: State, v: real)
    ensures Follows(s, if v < 0.0 then 0.0 else if v > 1.0 then 1.0 else v, SetPosition(s, v))
    decreases |s.script|, 2, 0
  {
    var clamped := if v < 0.0 then 0.0 else if v > 1.0 then 1.0 else v;
    var s1 := s.(position := clamped, roster := s.tokens, changes := s.changes + 1);
    if clamped == s.position {
      FollowsNothing(s, clamped, s);
    } else if s.tokens == [] {
      FollowsNothing(s, clamped, s1);
    } else {
      WalkFollows(s1, s1.tokens[0], clamped);
    }
  }

  /** Setting the position there is changes nothing and calls nobody. */
  lemma SetAgain(s: State, v: real)
    requires 0.0 <= v <= 1.0 && s.position == v
    ensures SetPosition(s, v) == s
  {}

  ghost predicate SetsNothing(script: seq<Action>) { forall i :: 0 <= i < |script| ==> !script[i].Set? }

  lemma {:induction false} NoLastSet(actions: seq<Action>, position: real)
    requires SetsNothing(actions)
    ensures LastSet(actions, position) == position
  {
    if actions != [] { NoLastSet(actions[..|actions| - 1], position); }
  }

  lemma {:induction false} CallbackQuiet(s: State)
    requires SetsNothing(s.script)
    ensures var r := Callback(s); Quiet(s, r) && SetsNothing(r.script)
    decreases |s.script|
  {
    if s.script != [] {
      var rest := s.(script := s.script[1..]);
      assert !s.script[0].Set?;
      match s.script[0]
      case Return =>
      case Add => CallbackQuiet(Added(rest));
      case Remove(token) => CallbackQuiet(Removed(rest, token));
    }
  }

  lemma {:induction false} WalkQuiet(s: State, token: nat, target: real)
    requires SetsNothing(s.script)
    ensures var r := Walk(s, token, target); r.roster == s.roster && r.changes == s.changes
    decreases |s.script|, 1, Above(s.tokens, token)
  {
    var s1 := Visit(s, token);
    if token in s.tokens { CallbackQuiet(Told(s, token)); }
    var next := FirstAbove(s1.tokens, token);
    if s1.position == target && next.Some? {
      AboveShrinks(s1.tokens, token, next.value);
      WalkQuiet(s1, next.value, target);
    }
  }

  /** If its callbacks set nothing, setting a new position within range leaves that position, changes it once, and every
      listener that was registered and still is has been given it. */
  lemma SetTells(s: State, v: real, t: nat)
    requires Ok(s) && 0.0 <= v <= 1.0 && v != s.position && SetsNothing(s.script)
    ensures var r := SetPosition(s, v);
      && r.position == v && r.changes == s.changes + 1
      && (t in s.tokens && t in r.tokens ==> t in r.heard && r.heard[t] == v)
  {
    var r := SetPosition(s, v);
    SetSettles(s, v);
    SetFollows(s, v);
    NoLastSet(s.script[..|s.script| - |r.script|], v);
    var s1 := s.(position := v, roster := s.tokens, changes := s.changes + 1);
    if s.tokens != [] { WalkQuiet(s1, s1.tokens[0], v); }
    assert t in r.roster && t in r.tokens ==> Current(r, t);
  }

  // ---------------------------------------------------------------- who is registered

  /** Registering adds a token never handed out before; deregistering takes that one alone; neither calls anybody. */
  lemma WhoIsRegistered(s: State, token: nat, t: nat)
    requires Ok(s)
    ensures t in Added(s).tokens <==> t in s.tokens || t == s.nextToken
    ensures s.nextToken !in s.tokens && Added(s).nextToken > s.nextToken
    ensures t in Removed(s, token).tokens <==> t in s.tokens && t != token
    ensures Quiet(s, Added(s)) && Quiet(s, Removed(s, token)) && Removed(s, token).nextToken == s.nextToken
  {
    DroppedTokens(s.tokens, token);
    if t in Added(s).tokens && t !in s.tokens { assert t == s.nextToken; }
    assert Added(s).tokens[|s.tokens|] == s.nextToken;
  }

  lemma {:induction false} LastSetInRange(actions: seq<Action>, position: real)
    requires 0.0 <= position <= 1.0
    ensures 0.0 <= LastSet(actions, position) <= 1.0
  {
    if actions != [] { LastSetInRange(actions[..|actions| - 1], position); }
  }

  /** The crossfader starts in the middle, and is between its ends whatever is set. */
  lemma {:induction false} AlwaysInRange(os: seq<Outer>)
    ensures 0.0 <= PerformAll(NEW_STATE, os).position <= 1.0
    ensures os == [] ==> PerformAll(NEW_STATE, os).position == 0.5
    decreases |os|
  {
    if os != [] {
      AlwaysInRange(os[..|os| - 1]);
      var s, o := PerformAll(NEW_STATE, os[..|os| - 1]), os[|os| - 1];
      var t := s.(script := o.script);
      if o.action.Set? {
        var v, r := o.action.value, SetPosition(t, o.action.value);
        SetFollows(t, v);
        LastSetInRange(t.script[..|t.script| - |r.script|], if v < 0.0 then 0.0 else if v > 1.0 then 1.0 else v);
      }
    }
  }
}
