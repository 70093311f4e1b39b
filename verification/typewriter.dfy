/** The landing page's typewriter: it types one of its texts a character at
    a time, pauses on the whole text, deletes it a character at a time, and
    moves on to the next text, round and round.

    One call of `Step` is one run of the effect, together with the timer
    callback that run schedules; the speeds and the pause length are only
    timer delays and are left out. */
module TypewriterMachine {

  /** `currentTextIndex`, `currentText`, `isDeleting`, `isPaused`. */
  datatype State = State(index: nat, text: string, deleting: bool, paused: bool)

  const Start := State(0, "", false, false)

  /** What every reachable state satisfies: the index is in range, the text
      shown is a prefix of the current target, and a pause happens only on
      the whole target, while typing. */
  predicate Inv(texts: seq<string>, st: State) {
    st.index < |texts|
    && st.text <= texts[st.index]
    && (st.paused ==> !st.deleting && st.text == texts[st.index])
  }

  /** One run of the effect. */
  function Next(texts: seq<string>, st: State): (r: State)
    requires Inv(texts, st)
    ensures Inv(texts, r)
    ensures st.paused ==> r == st.(paused := false, deleting := true)
    ensures !st.paused && !st.deleting && st.text == texts[st.index] ==> r == st.(paused := true)
    ensures !st.paused && st.deleting && st.text == "" ==>
              r == st.(deleting := false, index := (st.index + 1) % |texts|)
    ensures !st.paused && !st.deleting && st.text != texts[st.index] ==>
              r.index == st.index && !r.deleting && !r.paused
              && |r.text| == |st.text| + 1 && st.text < r.text
    ensures !st.paused && st.deleting && st.text != "" ==>
              r.index == st.index && r.deleting && !r.paused
              && |r.text| == |st.text| - 1 && r.text < st.text
  {
    var target := texts[st.index];
    if st.paused then st.(paused := false, deleting := true)
    else if !st.deleting && st.text == target then st.(paused := true)
    else if st.deleting && st.text == "" then st.(deleting := false, index := (st.index + 1) % |texts|)
    else if st.deleting then st.(text := target[..|st.text| - 1])
    else st.(text := target[..|st.text| + 1])
  }

  /** `k` runs of the effect. */
  function Run(texts: seq<string>, st: State, k: nat): (r: State)
    requires Inv(texts, st)
    ensures Inv(texts, r)
    decreases k
  {
    if k == 0 then st else Run(texts, Next(texts, st), k - 1)
  }

  /** Running `a` steps and then `b` more is running `a + b` steps. */
  lemma {:induction false} RunAdds(texts: seq<string>, st: State, a: nat, b: nat)
    requires Inv(texts, st)
    ensures Run(texts, Run(texts, st, a), b) == Run(texts, st, a + b)
    decreases a
  {
    if a > 0 {
      RunAdds(texts, Next(texts, st), a - 1, b);
    }
  }

  /** Typing from `j` characters of the target reaches the whole target
      after one step per missing character. */
  lemma {:induction false} TypingCompletes(texts: seq<string>, i: nat, j: nat)
    requires i < |texts| && j <= |texts[i]|
    ensures Run(texts, State(i, texts[i][..j], false, false), |texts[i]| - j) == State(i, texts[i], false, false)
    decreases |texts[i]| - j
  {
    if j == |texts[i]| {
      assert texts[i][..j] == texts[i];
    } else {
      var st := State(i, texts[i][..j], false, false);
      assert Next(texts, st) == State(i, texts[i][..j + 1], false, false);
      TypingCompletes(texts, i, j + 1);
    }
  }

  /** Deleting from `j` characters of the target empties it after one step
      per character. */
  lemma {:induction false} DeletingCompletes(texts: seq<string>, i: nat, j: nat)
    requires i < |texts| && j <= |texts[i]|
    ensures Run(texts, State(i, texts[i][..j], true, false), j) == State(i, "", true, false)
    decreases j
  {
    if j > 0 {
      var st := State(i, texts[i][..j], true, false);
      assert Next(texts, st) == State(i, texts[i][..j - 1], true, false);
      DeletingCompletes(texts, i, j - 1);
    }
  }

  /** One full cycle: starting to type a text, the machine types it out,
      pauses, deletes it, and is ready to type the next text (the first
      after the last) after twice its length plus three steps. */
  lemma CycleAdvances(texts: seq<string>, i: nat)
    requires i < |texts|
    ensures Run(texts, State(i, "", false, false), 2 * |texts[i]| + 3)
            == State((i + 1) % |texts|, "", false, false)
  {
    var t := texts[i];
    var typing := State(i, "", false, false);
    var full := State(i, t, false, false);
    var deleting := State(i, t, true, false);
    var empty := State(i, "", true, false);
    assert t[..0] == "";
    TypingCompletes(texts, i, 0);
    assert Run(texts, full, 2) == deleting by {
      var pausing := full.(paused := true);
      assert Next(texts, full) == pausing;
      assert Next(texts, pausing) == deleting;
      assert Run(texts, pausing, 1) == Run(texts, deleting, 0);
    }
    assert t[..|t|] == t;
    DeletingCompletes(texts, i, |t|);
    assert Run(texts, empty, 1) == State((i + 1) % |texts|, "", false, false);
    RunAdds(texts, typing, |t|, 2);
    RunAdds(texts, typing, |t| + 2, |t|);
    RunAdds(texts, typing, 2 * |t| + 2, 1);
  }

  /** The component's state. */
  class Typewriter {
    const texts: seq<string>
    var index: nat
    var text: string
    var deleting: bool
    var paused: bool

    function Current(): State
      reads this
    {
      State(index, text, deleting, paused)
    }

    ghost predicate Valid()
      reads this
    {
      Inv(texts, Current())
    }

    /** A typewriter starts on the first text, showing nothing; the texts
        must not be empty, as the first one is read at once. */
    constructor (texts: seq<string>)
      requires |texts| > 0
      ensures Valid()
      ensures this.texts == texts && Current() == Start
    {
      this.texts := texts;
      index, text, deleting, paused := 0, "", false, false;
    }

    /** One run of the effect, with its timer callback. */
    method Step()
      requires Valid()
      modifies this
      ensures Valid()
      ensures Current() == Next(texts, old(Current()))
    {
      var target := texts[index];
      if paused {
        paused := false;
        deleting := true;
        return;
      }
      if !deleting && text == target {
        paused := true;
        return;
      }
      if deleting && text == "" {
        deleting := false;
        index := (index + 1) % |texts|;
        return;
      }
      if deleting {
        text := target[..|text| - 1];
      } else {
        text := target[..|text| + 1];
      }
    }
  }
}
