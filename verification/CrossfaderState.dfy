/** The program form of the crossfader: position and token list updated in place while listeners run, proved against
    the functions of module Listeners. */
module CrossfaderStates {
  import opened Playback
  import opened Listeners

  class CrossfaderState {
    var position: real
    /** The keys of the listener map, in order. */
    var tokens: seq<nat>
    var nextToken: nat
    /** What the listeners will do when called, and what they have been told. */
    var script: seq<Action>
    var heard: map<nat, real>
    ghost var roster: seq<nat>
    ghost var changes: nat

    ghost function View(): State
      reads this
    {
      State(position, tokens, nextToken, script, heard, roster, changes)
    }

    constructor ()
      ensures View() == NEW_STATE
    {
      position, tokens, nextToken, script, heard := 0.5, [], 0, [], map[];
      roster, changes := [], 0;
    }

    method AddListener() returns (token: nat)
      modifies this
      ensures View() == Added(old(View())) && token == old(nextToken)
    {
      token := nextToken;
      nextToken := nextToken + 1;
      tokens := tokens + [token];
    }

    method RemoveListener(token: nat)
      modifies this
      ensures View() == Removed(old(View()), token)
    {
      tokens := Dropped(tokens, token);
    }

    method SetPosition(value: real)
      modifies this
      ensures View() == Listeners.SetPosition(old(View()), value)
      decreases |script|, 3
    {
      var clamped := Clamp(value, 0.0, 1.0);
      if clamped == position { return; }
      position := clamped;
      roster, changes := tokens, changes + 1;
      Notify(clamped);
    }

    /** The walk looks the current token up afresh at every step. */
    method Notify(target: real)
      modifies this
      ensures View() == if old(tokens) == [] then old(View()) else Walk(old(View()), old(tokens)[0], target)
      decreases |script|, 2
    {
      if tokens == [] { return; }
      var token := tokens[0];
      ghost var done := Walk(View(), token, target);
      var walking := true;
      while walking
        invariant walking ==> Walk(View(), token, target) == done
        invariant !walking ==> View() == done
        invariant |script| <= |old(script)|
        decreases |script|, walking, Above(tokens, token)
      {
        ghost var s := View();
        if token in tokens { Invoke(token); }
        assert View() == Visit(s, token);
        var next := FirstAbove(tokens, token);
        if position != target || next.None? {
          walking := false;
        } else {
          AboveShrinks(tokens, token, next.value);
          token := next.value;
        }
      }
    }

    /** A listener is given the position and then does as it likes, up to its return. */
    method Invoke(token: nat)
      requires token in tokens
      modifies this
      ensures View() == Visit(old(View()), token)
      decreases |script|, 1
    {
      heard := heard[token := position];
      RunScript();
    }

    method RunScript()
      modifies this
      ensures View() == Callback(old(View()))
      decreases |script|, 0
    {
      if script == [] { return; }
      ghost var s := View();
      var action := script[0];
      script := script[1..];
      ghost var rest := View();
      assert rest == s.(script := s.script[1..]);
      match action
      case Return => return;
      case Set(v) =>
        SetPosition(v);
        assert View() == Listeners.SetPosition(rest, v);
        RunScript();
      case Add =>
        var _ := AddListener();
        RunScript();
      case Remove(token) =>
        RemoveListener(token);
        RunScript();
    }
  }
}
