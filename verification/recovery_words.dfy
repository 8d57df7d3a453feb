/** What one call says to the network and hears from it (codex/recovery.go:85-246), and the labels of the machine in
recovery.dfy that it amounts to. */
module RecoveryWords {
  import opened Wrappers
  import opened Recovery

  datatype Attempted = BatchOver | Unreadable | Got(snapshot: Snapshot)
  datatype Streamed = Over(result: Result) | Broken

  /** One exchange with the network or the operator; nothing in it says that the caller's context was canceled. */
  datatype Word =
    | Tried(attempt: Option<Attempted>)
    | Sent(prompt: string, reply: Option<Reply>)
    | Heard(stream: Option<Streamed>)
    | Confirmed(ok: bool)

  // ---- words and labels ----

  function ImageOf(w: Word): seq<Label> {
    match w
    case Tried(None) => [Cancel(AtTry)]
    case Tried(Some(BatchOver)) => [Expire]
    case Tried(Some(Unreadable)) => [AttemptLost]
    case Tried(Some(Got(s))) => [Look(s)]
    case Sent(_, r) => [Restart(Replied(r))]
    case Heard(None) => [Cancel(AtRead)]
    case Heard(Some(Over(r))) => [ReadEnds(r)]
    case Heard(Some(Broken)) => [ReadLost]
    case Confirmed(false) => [Cancel(AtPause)]
    case Confirmed(true) => [Label.Steer(RESUME), Take]
  }

  /** A request that was sent counts; a caller canceled before the reply ends as if it were refused. */
  function Replied(r: Option<Reply>): Reply { if r.Some? then r.value else Refused }

  function First(before: Snapshot, r: Option<Reply>): seq<Label> { [Label.Start(before, Replied(r))] }

  function Image(ws: seq<Word>): seq<Label> {
    if ws == [] then [] else Image(ws[..|ws| - 1]) + ImageOf(ws[|ws| - 1])
  }

  /** Between two moments the labels grew by the image of the words, and every start asked to finish the task. */
  ghost predicate Told(task: string, l0: seq<Label>, w0: seq<Word>, l1: seq<Label>, w1: seq<Word>) {
    && w0 <= w1
    && l1 == l0 + Image(w1[|w0|..])
    && forall w | w in w1[|w0|..] :: w.Sent? ==> w.prompt == FOLLOW_UP + task
  }

  lemma ToldNext(task: string, l0: seq<Label>, w0: seq<Word>, l1: seq<Label>, w1: seq<Word>, w: Word)
    requires Told(task, l0, w0, l1, w1) && (w.Sent? ==> w.prompt == FOLLOW_UP + task)
    ensures Told(task, l0, w0, l1 + ImageOf(w), w1 + [w])
  {
    hide Image, ImageOf;
    var ws := w1[|w0|..];
    assert (w1 + [w])[|w0|..] == ws + [w];
    ImageNext(ws, w);
    assert (l0 + Image(ws)) + ImageOf(w) == l0 + (Image(ws) + ImageOf(w));
  }

  lemma {:induction false} ImageJoins(a: seq<Word>, b: seq<Word>)
    ensures Image(a + b) == Image(a) + Image(b)
    decreases b
  {
    hide ImageOf;
    if b == [] {
      assert a + b == a;
    } else {
      var front, w := b[..|b| - 1], b[|b| - 1];
      ImageJoins(a, front);
      assert a + b == (a + front) + [w];
      ImageNext(a + front, w);
      assert (Image(a) + Image(front)) + ImageOf(w) == Image(a) + (Image(front) + ImageOf(w));
    }
  }

  lemma ImageNext(ws: seq<Word>, w: Word)
    ensures Image(ws + [w]) == Image(ws) + ImageOf(w)
  {
    hide ImageOf;
    assert (ws + [w])[..|ws|] == ws;
  }

  lemma ToldThen(task: string, l0: seq<Label>, w0: seq<Word>, l1: seq<Label>, w1: seq<Word>, l2: seq<Label>, w2: seq<Word>)
    requires Told(task, l0, w0, l1, w1) && Told(task, l1, w1, l2, w2)
    ensures Told(task, l0, w0, l2, w2)
  {
    hide Image;
    var a, b := w1[|w0|..], w2[|w1|..];
    assert w2[|w0|..] == a + b;
    ImageJoins(a, b);
    assert l2 == l0 + (Image(a) + Image(b));
  }

  lemma ToldGrows(task: string, l0: seq<Label>, w0: seq<Word>, l1: seq<Label>, w1: seq<Word>)
    requires Told(task, l0, w0, l1, w1)
    ensures w0 <= w1
  {
  }

  lemma ToldNothing(task: string, l: seq<Label>, w: seq<Word>)
    ensures Told(task, l, w, l, w)
  {
    assert w[|w|..] == [];
  }

  /** A whole call: the first word is the start with the task itself, the labels are the words' image. */
  ghost predicate Began(task: string, before: Snapshot, w0: seq<Word>, log: seq<Label>, w1: seq<Word>) {
    && w0 < w1 && w1[|w0|].Sent? && w1[|w0|].prompt == task
    && var r := w1[|w0|].reply;
       Told(task, First(before, r), w0 + [Sent(task, r)], log, w1)
  }

  lemma BeganGrows(task: string, before: Snapshot, w0: seq<Word>, log: seq<Label>, w1: seq<Word>)
    requires Began(task, before, w0, log, w1)
    ensures w0 <= w1
  {
  }

  lemma BeganThen(task: string, before: Snapshot, w0: seq<Word>, r: Option<Reply>, log: seq<Label>, w1: seq<Word>)
    requires Told(task, First(before, r), w0 + [Sent(task, r)], log, w1)
    ensures Began(task, before, w0, log, w1)
  {
    hide Image;
    assert (w0 + [Sent(task, r)])[|w0|] == Sent(task, r);
  }

  // ---- what an observer of the wire counts is what the machine counts ----

  datatype Kind = Starts | Resumes | Reads

  predicate IsWord(w: Word, k: Kind) {
    match k
    case Starts => w.Sent?
    case Resumes => w == Confirmed(true)
    case Reads => w.Tried? && w.attempt.Some? && !w.attempt.value.BatchOver?
  }

  predicate IsLabel(l: Label, k: Kind) {
    match k
    case Starts => l.Start? || l.Restart?
    case Resumes => l.Take?
    case Reads => l.Look? || l.AttemptLost?
  }

  function One(b: bool): nat { if b then 1 else 0 }

  function Words(ws: seq<Word>, k: Kind): nat {
    if ws == [] then 0 else Words(ws[..|ws| - 1], k) + One(IsWord(ws[|ws| - 1], k))
  }

  function Labels(log: seq<Label>, k: Kind): nat {
    if log == [] then 0 else Labels(log[..|log| - 1], k) + One(IsLabel(log[|log| - 1], k))
  }

  /** One start and at most one for every resume; at most three reads of history for every start and resume. */
  predicate Bounded(ws: seq<Word>) {
    && Words(ws, Starts) <= 1 + Words(ws, Resumes)
    && Words(ws, Reads) <= 3 * (Words(ws, Starts) + Words(ws, Resumes))
  }

  function InTally(t: Tally, k: Kind): nat {
    match k
    case Starts => t.starts
    case Resumes => t.taken
    case Reads => t.looks
  }

  lemma LabelsNext(log: seq<Label>, l: Label, k: Kind)
    ensures Labels(log + [l], k) == Labels(log, k) + One(IsLabel(l, k))
  {
    hide IsLabel;
    assert (log + [l])[..|log|] == log;
  }

  lemma LabelsNext2(log: seq<Label>, l: Label, m: Label, k: Kind)
    ensures Labels(log + [l, m], k) == Labels(log, k) + One(IsLabel(l, k)) + One(IsLabel(m, k))
  {
    hide IsLabel, Labels;
    LabelsNext(log, l, k);
    LabelsNext(log + [l], m, k);
    assert log + [l, m] == (log + [l]) + [m];
  }

  lemma LabelsOfWord(log: seq<Label>, w: Word, k: Kind)
    ensures Labels(log + ImageOf(w), k) == Labels(log, k) + One(IsWord(w, k))
  {
    hide Labels;
    var image := ImageOf(w);
    if |image| == 1 {
      LabelsNext(log, image[0], k);
      assert image == [image[0]];
    } else {
      LabelsNext2(log, image[0], image[1], k);
      assert image == [image[0], image[1]];
    }
  }

  lemma {:induction false} LabelsOfImage(log: seq<Label>, ws: seq<Word>, k: Kind)
    ensures Labels(log + Image(ws), k) == Labels(log, k) + Words(ws, k)
  {
    hide Labels, ImageOf, IsWord;
    if ws == [] {
      assert log + Image(ws) == log;
    } else {
      var front, w := ws[..|ws| - 1], ws[|ws| - 1];
      LabelsOfImage(log, front, k);
      LabelsOfWord(log + Image(front), w, k);
      assert log + Image(ws) == (log + Image(front)) + ImageOf(w);
    }
  }

  lemma {:induction false} WordsFirst(w: Word, ws: seq<Word>, k: Kind)
    ensures Words([w] + ws, k) == One(IsWord(w, k)) + Words(ws, k)
  {
    hide IsWord;
    if ws == [] {
      assert [w] + ws == [w] && [w][..0] == [];
    } else {
      var front, last := ws[..|ws| - 1], ws[|ws| - 1];
      WordsFirst(w, front, k);
      assert ([w] + ws)[..|ws|] == [w] + front;
    }
  }

  lemma FirstLabels(before: Snapshot, r: Option<Reply>, k: Kind)
    ensures Labels(First(before, r), k) == One(k.Starts?)
  {
    hide Labels;
    var first := First(before, r);
    NoLabels(k);
    assert [] + first == first;
    LabelsNext([], first[0], k);
  }

  lemma NoLabels(k: Kind)
    ensures Labels([], k) == 0
  {
  }

  /** The labels of a whole call count what its words count. */
  lemma BeganCounts(task: string, before: Snapshot, w0: seq<Word>, log: seq<Label>, w1: seq<Word>, k: Kind)
    requires Began(task, before, w0, log, w1)
    ensures Labels(log, k) == Words(w1[|w0|..], k)
  {
    hide Labels, Words, Image;
    var r, rest := w1[|w0|].reply, w1[|w0| + 1..];
    LabelsOfImage(First(before, r), rest, k);
    FirstLabels(before, r, k);
    WordsFirst(w1[|w0|], rest, k);
    assert w1[|w0|..] == [w1[|w0|]] + rest;
  }

  /** The machine's tally is the count of its labels. */
  lemma {:induction false} TallyCounts(task: string, run: seq<Label>, k: Kind)
    requires IsRun(Init(task), run)
    ensures InTally(After(Init(task), run).tally, k) == Labels(run, k)
  {
    hide Enabled, Next, IsLabel;
    if run != [] {
      TallyCounts(task, run[..|run| - 1], k);
      StepCounts(After(Init(task), run[..|run| - 1]), run[|run| - 1], k);
    }
  }

  lemma StepCounts(c: Client, l: Label, k: Kind)
    requires Enabled(c, l)
    ensures InTally(Next(c, l).tally, k) == InTally(c.tally, k) + One(IsLabel(l, k))
  {
    if l.Look? { LookedCounts(c, l.snapshot, k); }
  }

  lemma LookedCounts(c: Client, s: Snapshot, k: Kind)
    requires c.phase.Trying?
    ensures InTally(Looked(c, s).tally, k) == InTally(c.tally, k) + One(k.Reads?)
  {
    hide Track, Decide;
  }

  /** So the words of a whole call count what its tally says. */
  lemma WireCounts(task: string, before: Snapshot, w0: seq<Word>, log: seq<Label>, w1: seq<Word>, k: Kind)
    requires Began(task, before, w0, log, w1) && IsRun(Init(task), log)
    ensures Words(w1[|w0|..], k) == InTally(After(Init(task), log).tally, k)
  {
    hide Began, Labels, Words, InTally;
    BeganCounts(task, before, w0, log, w1, k);
    TallyCounts(task, log, k);
  }
}
