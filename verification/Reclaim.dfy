/** How client/src/engine/BufferPlaybackSource.cpp hands buffers to the audio thread and frees them again:
    the steps of `load` on the message thread and of a render block on the audio thread, interleaved in
    every sequentially consistent order.  Proved for any margin: the audio thread never reads a buffer
    that nobody owns any more. */
module Reclaim {
  import opened Playback

  type Buffer = nat

  /** `Started`: the generation has been advanced, the buffer pointer not yet read. */
  datatype Audio = Between | Started | Reading(buffer: Option<Buffer>)

  /** Where a running `load` is; it owns `incoming` itself until it finishes. */
  datatype Load =
    | Idle
    | Sweeping(incoming: Option<Buffer>, seen: nat)
    | Swept(incoming: Option<Buffer>)
    | Published(incoming: Option<Buffer>)
    | Stamped(incoming: Option<Buffer>, stamp: nat)

  datatype Retired = Retired(stamp: nat, buffer: Buffer)

  datatype State = State(
    generation: nat,
    active: Option<Buffer>,
    current: Option<Buffer>,
    retired: seq<Retired>,
    audio: Audio,
    load: Load)

  const INITIAL := State(0, None, None, [], Between, Idle)

  datatype Step =
    | BlockBegins | BlockReadsPointer | BlockEnds
    | LoadBegins(buffer: Option<Buffer>) | LoadErases | LoadPublishes | LoadStamps | LoadFinishes

  predicate Enabled(s: State, step: Step) {
    match step
    case BlockBegins => s.audio.Between?
    case BlockReadsPointer => s.audio.Started?
    case BlockEnds => s.audio.Reading?
    case LoadBegins(_) => s.load.Idle?
    case LoadErases => s.load.Sweeping?
    case LoadPublishes => s.load.Swept?
    case LoadStamps => s.load.Published?
    case LoadFinishes => s.load.Stamped?
  }

  /** The entries young enough to keep. */
  function Kept(retired: seq<Retired>, seen: nat, margin: nat): seq<Retired> {
    if retired == [] then []
    else (if seen - retired[0].stamp > margin then [] else [retired[0]]) + Kept(retired[1..], seen, margin)
  }

  function Next(margin: nat, s: State, step: Step): State
    requires Enabled(s, step)
  {
    match step
    case BlockBegins => s.(generation := s.generation + 1, audio := Started)
    case BlockReadsPointer => s.(audio := Reading(s.active))
    case BlockEnds => s.(audio := Between)
    case LoadBegins(buffer) => s.(load := Sweeping(buffer, s.generation))
    case LoadErases => s.(retired := Kept(s.retired, s.load.seen, margin), load := Swept(s.load.incoming))
    case LoadPublishes => s.(active := s.load.incoming, load := Published(s.load.incoming))
    case LoadStamps => s.(load := Stamped(s.load.incoming, s.generation))
    case LoadFinishes =>
      s.(retired := if s.current.Some? then s.retired + [Retired(s.load.stamp, s.current.value)] else s.retired,
         current := s.load.incoming, load := Idle)
  }

  ghost predicate InRetired(s: State, b: Buffer, since: nat) {
    exists i :: 0 <= i < |s.retired| && s.retired[i].buffer == b && s.retired[i].stamp >= since
  }

  /** Someone keeps the buffer alive: the current slot, a running load, or the retire list. */
  ghost predicate Owned(s: State, b: Buffer) {
    s.current == Some(b) || (!s.load.Idle? && s.load.incoming == Some(b)) || InRetired(s, b, 0)
  }

  ghost predicate Safe(s: State) {
    s.audio.Reading? && s.audio.buffer.Some? ==> Owned(s, s.audio.buffer.value)
  }

  /** What the audio thread reads is owned by something that outlives this block: the retire list only if
      the entry was stamped no earlier than the block began. */
  ghost predicate Held(s: State, b: Buffer) {
    || (s.current == Some(b) && (s.load.Stamped? ==> s.load.stamp >= s.generation))
    || ((s.load.Published? || s.load.Stamped?) && s.load.incoming == Some(b))
    || InRetired(s, b, s.generation)
  }

  ghost predicate Inv(s: State) {
    && s.active == (if s.load.Published? || s.load.Stamped? then s.load.incoming else s.current)
    && (s.load.Sweeping? ==> s.load.seen <= s.generation)
    && (s.load.Stamped? ==> s.load.stamp <= s.generation)
    && (forall i :: 0 <= i < |s.retired| ==> s.retired[i].stamp <= s.generation)
    && (s.audio.Reading? && s.audio.buffer.Some? ==> Held(s, s.audio.buffer.value))
  }

  /** An entry survives the sweep exactly if no more than `margin` blocks have begun since its stamp. */
  lemma {:induction false} KeptExactly(retired: seq<Retired>, seen: nat, margin: nat, e: Retired)
    ensures e in Kept(retired, seen, margin) <==> e in retired && seen - e.stamp <= margin
  {
    if retired != [] { KeptExactly(retired[1..], seen, margin, e); }
  }

  lemma StepKeepsInv(margin: nat, s: State, step: Step)
    requires Inv(s) && Enabled(s, step)
    ensures Inv(Next(margin, s, step))
  {
    var t := Next(margin, s, step);
    if step.LoadErases? {
      forall i | 0 <= i < |t.retired| ensures t.retired[i].stamp <= t.generation {
        KeptExactly(s.retired, s.load.seen, margin, t.retired[i]);
        assert t.retired[i] in s.retired;
      }
      if t.audio.Reading? && t.audio.buffer.Some? && InRetired(s, t.audio.buffer.value, s.generation) {
        var i :| && 0 <= i < |s.retired| && s.retired[i].buffer == t.audio.buffer.value
                 && s.retired[i].stamp >= s.generation;
        KeptExactly(s.retired, s.load.seen, margin, s.retired[i]);
        assert s.retired[i] in t.retired;
      }
    } else if step.LoadFinishes? && s.current.Some? {
      assert t.retired[|s.retired|] == Retired(s.load.stamp, s.current.value);
      assert forall i :: 0 <= i < |s.retired| ==> t.retired[i] == s.retired[i];
    }
  }

  ghost predicate IsRun(margin: nat, tr: seq<State>, steps: seq<Step>) {
    && |tr| == |steps| + 1 && tr[0] == INITIAL
    && forall i :: 0 <= i < |steps| ==> Enabled(tr[i], steps[i]) && tr[i + 1] == Next(margin, tr[i], steps[i])
  }

  lemma {:induction false} RunKeepsInv(margin: nat, tr: seq<State>, steps: seq<Step>, i: nat)
    requires IsRun(margin, tr, steps) && i <= |steps|
    ensures Inv(tr[i])
  {
    if i > 0 {
      RunKeepsInv(margin, tr, steps, i - 1);
      StepKeepsInv(margin, tr[i - 1], steps[i - 1]);
    }
  }

  /** In every interleaving and for every margin, the buffer being read is owned; and an entry the sweep
      drops is one whose buffer, if it is being read, something else owns. */
  lemma NeverFreedWhileRead(margin: nat, tr: seq<State>, steps: seq<Step>, i: nat)
    requires IsRun(margin, tr, steps) && i <= |steps|
    ensures Safe(tr[i])
  {
    RunKeepsInv(margin, tr, steps, i);
    var s := tr[i];
    if s.audio.Reading? && s.audio.buffer.Some? && InRetired(s, s.audio.buffer.value, s.generation) {
      assert InRetired(s, s.audio.buffer.value, 0);
    }
  }

  /** A retired entry is dropped only once every block that could have read the pointer before its buffer
      was replaced has ended: the sweep saw a generation later than the stamp, which is no earlier than
      any block that began while the buffer was published. */
  lemma DroppedOnlyWhenOver(margin: nat, tr: seq<State>, steps: seq<Step>, i: nat, e: Retired)
    requires IsRun(margin, tr, steps) && i < |steps| && steps[i] == LoadErases
    requires e in tr[i].retired && e !in tr[i + 1].retired
    ensures tr[i].generation > e.stamp + margin
    ensures tr[i].audio == Reading(Some(e.buffer)) ==>
      || tr[i].current == Some(e.buffer)
      || exists f :: f in tr[i + 1].retired && f.buffer == e.buffer && f.stamp >= tr[i].generation
  {
    RunKeepsInv(margin, tr, steps, i);
    var s := tr[i];
    KeptExactly(s.retired, s.load.seen, margin, e);
    if s.audio == Reading(Some(e.buffer)) && s.current != Some(e.buffer) {
      var x :| 0 <= x < |s.retired| && s.retired[x].buffer == e.buffer && s.retired[x].stamp >= s.generation;
      KeptExactly(s.retired, s.load.seen, margin, s.retired[x]);
      assert s.retired[x] in tr[i + 1].retired;
    }
  }

  /** Between the beginning of a load and its sweep, only the audio thread moves. */
  lemma {:induction false} SeenAtBegin(margin: nat, tr: seq<State>, steps: seq<Step>, j: nat, i: nat)
    requires IsRun(margin, tr, steps) && j < i <= |steps| && steps[j].LoadBegins?
    requires forall x :: j < x < i ==> steps[x].BlockBegins? || steps[x].BlockReadsPointer? || steps[x].BlockEnds?
    ensures tr[i].load == Sweeping(steps[j].buffer, tr[j].generation)
    decreases i
  {
    if i > j + 1 {
      SeenAtBegin(margin, tr, steps, j, i - 1);
      assert tr[i] == Next(margin, tr[i - 1], steps[i - 1]);
    }
  }

  /** Old buffers are freed: a load drops exactly the entries that more than `margin` blocks have begun after, counted
      when the load begins. */
  lemma SweepIsExact(margin: nat, tr: seq<State>, steps: seq<Step>, j: nat, i: nat, e: Retired)
    requires IsRun(margin, tr, steps) && j < i < |steps| && steps[j].LoadBegins? && steps[i].LoadErases?
    requires forall x :: j < x < i ==> steps[x].BlockBegins? || steps[x].BlockReadsPointer? || steps[x].BlockEnds?
    ensures e in tr[i + 1].retired <==> e in tr[i].retired && tr[j].generation - e.stamp <= margin
  {
    SeenAtBegin(margin, tr, steps, j, i);
    KeptExactly(tr[i].retired, tr[j].generation, margin, e);
    assert tr[i + 1] == Next(margin, tr[i], steps[i]);
  }

  /** What a load replaces is retired with the number of blocks begun since it was replaced, and nothing else is. */
  lemma RetiredWhenReplaced(margin: nat, tr: seq<State>, steps: seq<Step>, i: nat)
    requires IsRun(margin, tr, steps) && i < |steps| && !steps[i].LoadErases?
    ensures steps[i].LoadFinishes? && tr[i].current.Some? ==>
      tr[i + 1].retired == tr[i].retired + [Retired(tr[i].load.stamp, tr[i].current.value)]
    ensures !(steps[i].LoadFinishes? && tr[i].current.Some?) ==> tr[i + 1].retired == tr[i].retired
    ensures steps[i].LoadStamps? ==> tr[i + 1].load == Stamped(tr[i].load.incoming, tr[i].generation)
    ensures steps[i].LoadFinishes? ==> tr[i + 1].current == tr[i + 1].active
  {
    RunKeepsInv(margin, tr, steps, i);
    assert tr[i + 1] == Next(margin, tr[i], steps[i]);
  }
}
