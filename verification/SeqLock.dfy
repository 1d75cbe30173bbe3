/** The sequence-counter lock at the end of alsa-lib/include/iatomic.h: one writer and any
    number of readers over multi-word data, under sequential consistency. */
module SeqLock {

  // The counters are 32-bit unsigned ints.
  const WRAP: nat := 0x1_0000_0000

  /** A reader between snd_atomic_read_begin and its verdict: the sampled counter and
      the words loaded since. */
  datatype Reader = Idle | Reading(end: nat, seen: map<nat, int>)

  datatype State = State(
    begin: nat,
    end: nat,
    writing: bool,              // the writer is inside a write section
    data: seq<int>,
    readers: map<nat, Reader>)

  datatype Step =
    | WriteBegin
    | Store(word: nat, value: int)
    | WriteEnd
    | ReadBegin(reader: nat)
    | Load(reader: nat, word: nat)

  /** The discipline of the lock: the writer stores only inside a section and sections do
      not nest; a reader loads only after snd_atomic_read_begin. */
  predicate Enabled(s: State, step: Step) {
    match step
    case WriteBegin => !s.writing
    case Store(w, _) => s.writing && w < |s.data|
    case WriteEnd => s.writing
    case ReadBegin(r) => true
    case Load(r, w) => r in s.readers && s.readers[r].Reading? && w < |s.data|
  }

  function Apply(s: State, step: Step): State {
    match step
    case WriteBegin => s.(begin := (s.begin + 1) % WRAP, writing := true)
    case Store(w, v) => if w < |s.data| then s.(data := s.data[w := v]) else s
    case WriteEnd => s.(end := (s.end + 1) % WRAP, writing := false)
    case ReadBegin(r) => s.(readers := s.readers[r := Reading(s.end, map[])])
    case Load(r, w) =>
      if r in s.readers && s.readers[r].Reading? && w < |s.data| then
        s.(readers := s.readers[r := s.readers[r].(seen := s.readers[r].seen[w := s.data[w]])])
      else s
  }

  /** snd_atomic_read_ok. */
  predicate ReadOk(s: State, r: nat) {
    r in s.readers && s.readers[r].Reading? && s.readers[r].end == s.begin
  }

  /** snd_atomic_write_init, with any data and no reader started. */
  predicate Initial(s: State) {
    s.begin == 0 && s.end == 0 && !s.writing && s.readers == map[]
  }

  /** One move of the system. */
  ghost predicate Moves(s: State, step: Step, t: State) {
    Enabled(s, step) && t == Apply(s, step)
  }

  /** A run: states[k] is the state before steps[k], states[|steps|] the last one. */
  ghost predicate IsRun(states: seq<State>, steps: seq<Step>) {
    && |states| == |steps| + 1
    && Initial(states[0])
    && forall k {:trigger steps[k]} :: 0 <= k < |steps| ==> Moves(states[k], steps[k], states[k + 1])
  }

  /** Write sections begun in the first k steps. */
  function Begun(steps: seq<Step>, k: nat): nat
    requires k <= |steps|
  {
    if k == 0 then 0 else Begun(steps, k - 1) + (if steps[k - 1].WriteBegin? then 1 else 0)
  }

  /** Write sections ended in the first k steps. */
  function Ended(steps: seq<Step>, k: nat): nat
    requires k <= |steps|
  {
    if k == 0 then 0 else Ended(steps, k - 1) + (if steps[k - 1].WriteEnd? then 1 else 0)
  }

  lemma WrapNext(a: nat)
    ensures (a % WRAP + 1) % WRAP == (a + 1) % WRAP
  {
  }

  lemma WrapDistance(a: nat, b: nat)
    requires b <= a
    ensures a % WRAP == b % WRAP <==> (a - b) % WRAP == 0
  {
    var p, q := a / WRAP, b / WRAP;
    if a % WRAP == b % WRAP {
      Multiple(a - b, p - q);
    }
    if (a - b) % WRAP == 0 {
      var k := (a - b) / WRAP;
      assert a == WRAP * (q + k) + b % WRAP;
    }
  }

  lemma Multiple(a: nat, k: int)
    requires a == WRAP * k
    ensures a % WRAP == 0
  {
  }

  ghost predicate Tracks(s: State, begun: nat, ended: nat) {
    && s.begin == begun % WRAP
    && s.end == ended % WRAP
    && begun == ended + (if s.writing then 1 else 0)
  }

  lemma {:induction false} CountersTrackSections(states: seq<State>, steps: seq<Step>, k: nat)
    requires IsRun(states, steps) && k <= |steps|
    ensures Tracks(states[k], Begun(steps, k), Ended(steps, k))
  {
    if k > 0 {
      CountersTrackSections(states, steps, k - 1);
      assert Moves(states[k - 1], steps[k - 1], states[k]);
      WrapNext(Begun(steps, k - 1));
      WrapNext(Ended(steps, k - 1));
    }
  }

  lemma {:induction false} BegunMonotone(steps: seq<Step>, i: nat, j: nat)
    requires i <= j <= |steps|
    ensures Begun(steps, i) <= Begun(steps, j)
  {
    if i < j { BegunMonotone(steps, i, j - 1); }
  }

  /** With no section begun in between, the data stays put. */
  lemma {:induction false} QuietInterval(states: seq<State>, steps: seq<Step>, i: nat, j: nat)
    requires IsRun(states, steps) && i <= j <= |steps|
    requires !states[i].writing && Begun(steps, i) == Begun(steps, j)
    ensures !states[j].writing && states[j].data == states[i].data
  {
    if i < j {
      BegunMonotone(steps, i, j - 1);
      QuietInterval(states, steps, i, j - 1);
      assert Moves(states[j - 1], steps[j - 1], states[j]);
    }
  }

  /** Reader r is inside the read section it opened at step i. */
  ghost predicate ReadingSince(steps: seq<Step>, i: nat, j: nat, r: nat) {
    && i < j <= |steps|
    && steps[i] == ReadBegin(r)
    && forall k :: i < k < j ==> steps[k] != ReadBegin(r)
  }

  ghost predicate Holds(s: State, r: nat, end: nat) {
    r in s.readers && s.readers[r].Reading? && s.readers[r].end == end
  }

  lemma {:induction false} SampleKept(states: seq<State>, steps: seq<Step>, i: nat, j: nat, r: nat)
    requires IsRun(states, steps) && ReadingSince(steps, i, j, r)
    ensures Holds(states[j], r, states[i].end)
  {
    assert Moves(states[j - 1], steps[j - 1], states[j]);
    if i + 1 < j { SampleKept(states, steps, i, j - 1, r); }
  }

  /** Every word a reader holds was in memory at some moment of its section. */
  lemma {:induction false} SeenWasThere(states: seq<State>, steps: seq<Step>, i: nat, j: nat, r: nat, w: nat)
    returns (k: nat)
    requires IsRun(states, steps) && ReadingSince(steps, i, j, r)
    requires Holds(states[j], r, states[i].end) && w in states[j].readers[r].seen
    ensures i < k < j && w < |states[k].data| && states[k].data[w] == states[j].readers[r].seen[w]
  {
    var prev := states[j - 1];
    assert Moves(prev, steps[j - 1], states[j]);
    if i + 1 == j {
      assert false;
    } else if steps[j - 1].Load? && steps[j - 1].reader == r && steps[j - 1].word == w {
      k := j - 1;
    } else {
      SampleKept(states, steps, i, j - 1, r);
      k := SeenWasThere(states, steps, i, j - 1, r, w);
    }
  }

  /** No write section overlaps states i to j. */
  ghost predicate NoOverlap(states: seq<State>, i: nat, j: nat)
    requires i <= j < |states|
  {
    forall k :: i <= k <= j ==> !states[k].writing
  }

  lemma {:induction false} QuietHasNoSection(states: seq<State>, steps: seq<Step>, i: nat, j: nat)
    requires IsRun(states, steps) && i <= j <= |steps| && NoOverlap(states, i, j)
    ensures Begun(steps, i) == Begun(steps, j)
  {
    if i < j {
      QuietHasNoSection(states, steps, i, j - 1);
      assert Moves(states[j - 1], steps[j - 1], states[j]);
    }
  }

  /** The law of the verdict, without any bound: it is true exactly when the sections begun by its
      time and those ended by the time of the sample differ by a multiple of 2^32. */
  lemma VerdictIsCongruence(states: seq<State>, steps: seq<Step>, i: nat, j: nat, r: nat)
    requires IsRun(states, steps) && ReadingSince(steps, i, j, r)
    ensures Ended(steps, i) <= Begun(steps, j)
    ensures ReadOk(states[j], r) <==> (Begun(steps, j) - Ended(steps, i)) % 0x1_0000_0000 == 0
  {
    SampleKept(states, steps, i, j, r);
    CountersTrackSections(states, steps, i);
    CountersTrackSections(states, steps, j);
    BegunMonotone(steps, i, j);
    WrapDistance(Begun(steps, j), Ended(steps, i));
  }

  /** No section overlaps the read exactly when all that have begun by its end had ended at its
      start. */
  lemma QuietIsEnded(states: seq<State>, steps: seq<Step>, i: nat, j: nat)
    requires IsRun(states, steps) && i <= j <= |steps|
    ensures NoOverlap(states, i, j) <==> Begun(steps, j) == Ended(steps, i)
  {
    CountersTrackSections(states, steps, i);
    BegunMonotone(steps, i, j);
    if Begun(steps, j) == Ended(steps, i) {
      forall k | i <= k <= j ensures !states[k].writing {
        BegunMonotone(steps, i, k);
        BegunMonotone(steps, k, j);
        QuietInterval(states, steps, i, k);
      }
    }
    if NoOverlap(states, i, j) {
      QuietHasNoSection(states, steps, i, j);
    }
  }

  /** The law of the lock: unless 2^32-1 write sections begin during the read, the verdict is
      true exactly when no write section overlaps it. */
  lemma VerdictIsExact(states: seq<State>, steps: seq<Step>, i: nat, j: nat, r: nat)
    requires IsRun(states, steps) && ReadingSince(steps, i, j, r)
    requires Begun(steps, j) - Begun(steps, i) < 0xFFFF_FFFF
    ensures ReadOk(states[j], r) <==> NoOverlap(states, i, j)
  {
    VerdictIsCongruence(states, steps, i, j, r);
    QuietIsEnded(states, steps, i, j);
    CountersTrackSections(states, steps, i);
  }

  /** A true verdict means everything loaded is one snapshot: memory did not change over the
      whole section and each word seen is its value. */
  lemma TrueVerdictIsSnapshot(states: seq<State>, steps: seq<Step>, i: nat, j: nat, r: nat)
    requires IsRun(states, steps) && ReadingSince(steps, i, j, r)
    requires Begun(steps, j) - Begun(steps, i) < 0xFFFF_FFFF
    requires ReadOk(states[j], r)
    ensures forall k :: i <= k <= j ==> states[k].data == states[j].data
    ensures forall w :: w in states[j].readers[r].seen ==>
              w < |states[j].data| && states[j].readers[r].seen[w] == states[j].data[w]
  {
    VerdictIsExact(states, steps, i, j, r);
    SampleKept(states, steps, i, j, r);
    QuietHasNoSection(states, steps, i, j);
    forall k | i <= k <= j ensures states[k].data == states[j].data {
      BegunMonotone(steps, i, k);
      BegunMonotone(steps, k, j);
      QuietInterval(states, steps, k, j);
    }
    forall w | w in states[j].readers[r].seen
      ensures w < |states[j].data| && states[j].readers[r].seen[w] == states[j].data[w]
    {
      var k := SeenWasThere(states, steps, i, j, r, w);
    }
  }

  // ---- The bound is sharp ----

  /** The writer closes a section and opens the next n times while a reader holds its sample,
      then stores. */
  lemma {:induction false} Churn(n: nat) returns (states: seq<State>, steps: seq<Step>)
    ensures IsRun(states, steps) && ReadingSince(steps, 1, |steps|, 0) && |steps| >= 3
    ensures Begun(steps, 1) == 1 && Begun(steps, |steps|) == n + 1
    ensures states[|steps|] == State((n + 1) % WRAP, n % WRAP, true, [0], map[0 := Reading(0, map[0 := 0])])
  {
    if n == 0 {
      var a := State(0, 0, false, [0], map[]);
      steps := [WriteBegin, ReadBegin(0), Load(0, 0)];
      var b := Apply(a, steps[0]);
      var c := Apply(b, steps[1]);
      states := [a, b, c, Apply(c, steps[2])];
      assert Begun(steps, 1) == 1;
      assert Begun(steps, 2) == 1;
    } else {
      states, steps := Churn(n - 1);
      states, steps := Extend(states, steps, WriteEnd);
      states, steps := Extend(states, steps, WriteBegin);
      WrapNext(n - 1);
      WrapNext(n);
    }
  }

  lemma Extend(states0: seq<State>, steps0: seq<Step>, step: Step) returns (states: seq<State>, steps: seq<Step>)
    requires IsRun(states0, steps0) && ReadingSince(steps0, 1, |steps0|, 0)
    requires Enabled(states0[|steps0|], step) && step != ReadBegin(0)
    ensures steps == steps0 + [step] && states == states0 + [Apply(states0[|steps0|], step)]
    ensures IsRun(states, steps) && ReadingSince(steps, 1, |steps|, 0)
    ensures Begun(steps, 1) == Begun(steps0, 1)
    ensures Begun(steps, |steps|) == Begun(steps0, |steps0|) + (if step.WriteBegin? then 1 else 0)
  {
    steps := steps0 + [step];
    states := states0 + [Apply(states0[|steps0|], step)];
    BegunPrefix(steps0, step, 1);
    BegunPrefix(steps0, step, |steps0|);
    forall k {:trigger steps[k]} | 0 <= k < |steps|
      ensures Moves(states[k], steps[k], states[k + 1])
    {
      if k < |steps0| {
        assert Moves(states0[k], steps0[k], states0[k + 1]);
      }
    }
  }

  lemma {:induction false} BegunPrefix(steps: seq<Step>, step: Step, k: nat)
    requires k <= |steps|
    ensures Begun(steps + [step], k) == Begun(steps, k)
  {
    if k > 0 { BegunPrefix(steps, step, k - 1); }
  }

  /** With exactly 2^32-1 sections begun during the read the verdict can be true although a
      section overlaps it and the word seen is stale. */
  lemma BoundIsSharp() returns (states: seq<State>, steps: seq<Step>)
    ensures IsRun(states, steps) && ReadingSince(steps, 1, |steps|, 0)
    ensures Begun(steps, |steps|) - Begun(steps, 1) == 0xFFFF_FFFF
    ensures ReadOk(states[|steps|], 0) && !NoOverlap(states, 1, |steps|)
    ensures states[|steps|].data == [1] && states[|steps|].readers[0].seen == map[0 := 0]
  {
    states, steps := Churn(WRAP - 1);
    states, steps := Extend(states, steps, Store(0, 1));
    CountersTrackSections(states, steps, 1);
    VerdictIsCongruence(states, steps, 1, |steps|, 0);
    QuietIsEnded(states, steps, 1, |steps|);
  }

  // ---- The C functions ----

  class AtomicWrite {
    var begin: nat
    var end: nat

    /** The counters are those of the modelled state. */
    ghost predicate Shows(s: State)
      reads this
    {
      begin == s.begin && end == s.end
    }

    constructor ()
      ensures forall s: State :: Initial(s) ==> Shows(s)
    {
      begin, end := 0, 0;
    }

    method WriteBegin(ghost s: State)
      requires Shows(s)
      modifies this
      ensures Shows(Apply(s, Step.WriteBegin))
    {
      begin := (begin + 1) % WRAP;
    }

    method WriteEnd(ghost s: State)
      requires Shows(s)
      modifies this
      ensures Shows(Apply(s, Step.WriteEnd))
    {
      end := (end + 1) % WRAP;
    }
  }

  class AtomicRead {
    const write: AtomicWrite
    var end: nat

    constructor (w: AtomicWrite)
      ensures write == w
    {
      write := w;
    }

    method ReadBegin(ghost s: State, ghost r: nat)
      requires write.Shows(s)
      modifies this
      ensures Apply(s, Step.ReadBegin(r)).readers[r] == Reading(end, map[])
    {
      end := write.end;
    }

    method ReadVerdict(ghost s: State, ghost r: nat) returns (ok: bool)
      requires write.Shows(s) && r in s.readers && s.readers[r].Reading? && s.readers[r].end == end
      ensures ok == ReadOk(s, r)
    {
      ok := end == write.begin;
    }
  }
}
