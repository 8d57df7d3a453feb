/** The live answer when the notification queue was full (codex/codex.go:714-740 with codex/rpc.go:318-341). A start
frame may be discarded and a completion never is, but it is the start that fixes when an item was first seen; so the
stream can come to another answer than history. */
module ThinnedAnswers {
  import opened Recovery
  import opened Answers

  /** What may be discarded: starts, and nothing else. */
  predicate Keeps(events: seq<Event>, kept: seq<bool>) {
    |kept| == |events| && forall i | 0 <= i < |events| :: events[i].Finished? ==> kept[i]
  }

  function Thinned(events: seq<Event>, kept: seq<bool>): seq<Event>
    requires |kept| == |events|
  {
    if events == [] then []
    else
      Thinned(events[..|events| - 1], kept[..|kept| - 1]) +
      (if kept[|kept| - 1] then [events[|events| - 1]] else [])
  }

  /** Where the first frame of an item that was kept stands; the length if there is none. */
  function First(events: seq<Event>, kept: seq<bool>, id: string): nat
    requires |kept| == |events|
  {
    if events == [] then 0
    else
      var n := |events| - 1;
      var f := First(events[..n], kept[..n], id);
      if f < n then f else if kept[n] && events[n].id == id then n else n + 1
  }

  function All(n: nat): seq<bool> { seq(n, i => true) }

  // ---- first-seen order is the order of the first frames ----

  ghost predicate Ordered(events: seq<Event>, kept: seq<bool>, ids: seq<string>)
    requires |kept| == |events|
  {
    && (forall id :: id in ids <==> First(events, kept, id) < |events|)
    && (forall i, j | 0 <= i < j < |ids| :: First(events, kept, ids[i]) < First(events, kept, ids[j]))
  }

  lemma {:induction false} FirstBound(events: seq<Event>, kept: seq<bool>, id: string)
    requires |kept| == |events|
    ensures First(events, kept, id) <= |events|
  {
    if events != [] { FirstBound(events[..|events| - 1], kept[..|kept| - 1], id); }
  }

  lemma FirstNext(events: seq<Event>, kept: seq<bool>, e: Event, k: bool, id: string)
    requires |kept| == |events|
    ensures First(events + [e], kept + [k], id) ==
            var f, n := First(events, kept, id), |events|;
            if f < n then f else if k && e.id == id then n else n + 1
  {
    assert (events + [e])[..|events|] == events && (kept + [k])[..|kept|] == kept;
  }

  lemma ThinnedNext(events: seq<Event>, kept: seq<bool>, e: Event, k: bool)
    requires |kept| == |events|
    ensures Thinned(events + [e], kept + [k]) == Thinned(events, kept) + (if k then [e] else [])
  {
    assert (events + [e])[..|events|] == events && (kept + [k])[..|kept|] == kept;
  }

  lemma OrderedNext(events: seq<Event>, kept: seq<bool>, e: Event, k: bool, ids: seq<string>)
    requires |kept| == |events| && Ordered(events, kept, ids)
    ensures Ordered(events + [e], kept + [k], if k && e.id !in ids then ids + [e.id] else ids)
  {
    hide First;
    forall id ensures First(events + [e], kept + [k], id) ==
                      var f, n := First(events, kept, id), |events|;
                      if f < n then f else if k && e.id == id then n else n + 1
    {
      FirstNext(events, kept, e, k, id);
    }
  }

  lemma {:induction false} SeenOrdered(events: seq<Event>, kept: seq<bool>)
    requires |kept| == |events|
    ensures Ordered(events, kept, Seen(Thinned(events, kept)))
  {
    hide First, Ordered, Thinned;
    if events == [] {
      NothingOrdered(events, kept);
    } else {
      var n := |events| - 1;
      var init, mask := events[..n], kept[..n];
      SeenOrdered(init, mask);
      assert events == init + [events[n]] && kept == mask + [kept[n]];
      ThinnedNext(init, mask, events[n], kept[n]);
      OrderedNext(init, mask, events[n], kept[n], Seen(Thinned(init, mask)));
      if kept[n] {
        Nexts(NOTHING, Thinned(init, mask), events[n]);
      } else {
        assert Thinned(events, kept) == Thinned(init, mask);
      }
    }
  }

  lemma NothingOrdered(events: seq<Event>, kept: seq<bool>)
    requires events == [] && kept == []
    ensures Ordered(events, kept, Seen(Thinned(events, kept)))
  {
  }

  lemma {:induction false} AllThinned(events: seq<Event>)
    ensures Thinned(events, All(|events|)) == events
  {
    if events != [] {
      var n := |events| - 1;
      AllThinned(events[..n]);
      assert All(|events|)[..n] == All(n) && events == events[..n] + [events[n]];
    }
  }

  lemma {:induction false} KeptFirst(events: seq<Event>, kept: seq<bool>, id: string)
    requires |kept| == |events|
    ensures First(events, All(|events|), id) <= First(events, kept, id)
  {
    if events != [] {
      var n := |events| - 1;
      KeptFirst(events[..n], kept[..n], id);
      assert All(|events|)[..n] == All(n);
      FirstBound(events[..n], All(n), id);
      FirstBound(events[..n], kept[..n], id);
    }
  }

  lemma {:induction false} SameDone(events: seq<Event>, kept: seq<bool>)
    requires Keeps(events, kept)
    ensures Done(Thinned(events, kept)) == Done(events)
  {
    if events != [] {
      var n := |events| - 1;
      SameDone(events[..n], kept[..n]);
      assert events == events[..n] + [events[n]] && kept == kept[..n] + [kept[n]];
      ThinnedNext(events[..n], kept[..n], events[n], kept[n]);
      Nexts(NOTHING, events[..n], events[n]);
      if kept[n] {
        Nexts(NOTHING, Thinned(events[..n], kept[..n]), events[n]);
      } else {
        assert Thinned(events, kept) == Thinned(events[..n], kept[..n]);
      }
    }
  }

  lemma OnceNext(events: seq<Event>, e: Event)
    requires CompletesOnce(events) && (e.Finished? ==> e.id !in Done(events))
    ensures CompletesOnce(events + [e])
  {
    hide Done;
    DoneMembers(events, e.id);
  }

  /** Thinning keeps each item's completion single. */
  lemma {:induction false} StillOnce(events: seq<Event>, kept: seq<bool>)
    requires Keeps(events, kept) && CompletesOnce(events)
    ensures CompletesOnce(Thinned(events, kept))
  {
    hide Done, Thinned;
    if events == [] {
      ThinNothing();
    } else {
      var n := |events| - 1;
      var init, mask := events[..n], kept[..n];
      StillOnce(init, mask);
      SameDone(init, mask);
      if events[n].Finished? { NotDoneYet(events); }
      assert events == init + [events[n]] && kept == mask + [kept[n]];
      ThinnedNext(init, mask, events[n], kept[n]);
      if kept[n] {
        OnceNext(Thinned(init, mask), events[n]);
      } else {
        assert Thinned(events, kept) == Thinned(init, mask);
      }
    }
  }

  // ---- the answer as an item ----

  /** The reader of these events ends with the message of this item. */
  ghost predicate AnswersWith(events: seq<Event>, w: string) {
    exists order :: 1 <= order <= |Seen(events)| && Seen(events)[order - 1] == w && w in Done(events) &&
      Wins(Seen(events), Done(events), NOTHING, order, Done(events)[w].final, Done(events)[w].text)
  }

  /** The completed items among which the latest-seen one is the answer: the final answers, if there are any. */
  predicate Candidate(done: map<string, Message>, w: string, x: string) {
    w in done && x in done && done[x].final == done[w].final
  }

  lemma SomeAnswer(events: seq<Event>) returns (w: string)
    requires CompletesOnce(events) && Done(events) != map[]
    ensures AnswersWith(events, w) && w in Done(events)
    ensures Read(NOTHING, events).text == Done(events)[w].text && Read(NOTHING, events).final == Done(events)[w].final
  {
    ReaderWins(NOTHING, events);
    var r, ids, done := Read(NOTHING, events), Seen(events), Done(events);
    var x :| x in done;
    SeenMembers(events, x);
    assert r.order >= 1 by {
      var i :| 0 <= i < |ids| && ids[i] == x;
    }
    w := ids[r.order - 1];
  }

  /** Every candidate but `w` itself was first seen before it. */
  ghost predicate LastAmong(ids: seq<string>, done: map<string, Message>, w: string) {
    forall i, j | 0 <= i < |ids| && 0 <= j < |ids| && ids[i] == w && ids[j] != w && Candidate(done, w, ids[j]) :: j < i
  }

  predicate FinalFirst(done: map<string, Message>, w: string) {
    w in done && (done[w].final || forall x | x in done :: !done[x].final)
  }

  lemma WinsIsLast(ids: seq<string>, done: map<string, Message>, w: string, i: nat)
    requires i < |ids| && ids[i] == w && w in done && forall x | x in done :: x in ids
    requires forall j, k | 0 <= j < k < |ids| :: ids[j] != ids[k]
    ensures Wins(ids, done, NOTHING, i + 1, done[w].final, done[w].text) <==> FinalFirst(done, w) && LastAmong(ids, done, w)
  {
    if FinalFirst(done, w) && LastAmong(ids, done, w) {
      forall k | 0 <= k < |ids| && ids[k] in done && (done[ids[k]].final || !done[w].final)
        ensures (done[ids[k]].final ==> done[w].final) && k < i + 1
      {
        assert ids[k] == w || Candidate(done, w, ids[k]);
      }
    }
    if Wins(ids, done, NOTHING, i + 1, done[w].final, done[w].text) { WinsThenLast(ids, done, w, i); }
  }

  lemma WinsThenLast(ids: seq<string>, done: map<string, Message>, w: string, i: nat)
    requires i < |ids| && ids[i] == w && w in done && forall x | x in done :: x in ids
    requires forall j, k | 0 <= j < k < |ids| :: ids[j] != ids[k]
    requires Wins(ids, done, NOTHING, i + 1, done[w].final, done[w].text)
    ensures FinalFirst(done, w) && LastAmong(ids, done, w)
  {
    forall x | x in done && done[x].final ensures done[w].final {
      var k :| 0 <= k < |ids| && ids[k] == x;
    }
  }

  /** It is the candidate that was first seen last. */
  lemma AnswerIsLast(events: seq<Event>, w: string)
    requires CompletesOnce(events) && w in Done(events)
    ensures AnswersWith(events, w) <==> FinalFirst(Done(events), w) && LastAmong(Seen(events), Done(events), w)
  {
    hide Wins, FinalFirst, LastAmong;
    var ids, done := Seen(events), Done(events);
    ReaderWins(NOTHING, events);
    forall x | x in done ensures x in ids { SeenMembers(events, x); }
    var i :| 0 <= i < |ids| && ids[i] == w;
    WinsIsLast(ids, done, w, i);
    assert forall j | 0 <= j < |ids| && ids[j] == w :: j == i;
    if AnswersWith(events, w) {
      var order :|
        1 <= order <= |ids| && ids[order - 1] == w && Wins(ids, done, NOTHING, order, done[w].final, done[w].text);
      assert order - 1 == i;
    }
    if Wins(ids, done, NOTHING, i + 1, done[w].final, done[w].text) { assert ids[(i + 1) - 1] == w; }
  }

  lemma OneAnswer(events: seq<Event>, w: string, x: string)
    requires CompletesOnce(events) && AnswersWith(events, w) && AnswersWith(events, x)
    ensures w == x
  {
    hide Wins;
    var ids, done := Seen(events), Done(events);
    AnswerIsLast(events, w);
    AnswerIsLast(events, x);
    var i :| 0 <= i < |ids| && ids[i] == w;
    var j :| 0 <= j < |ids| && ids[j] == x;
  }

  // ---- exactly when the thinned stream still agrees ----

  /** A candidate whose own first frame is lost and that now comes after the answer's first frame. */
  ghost predicate Overtakes(events: seq<Event>, kept: seq<bool>, w: string, x: string)
    requires |kept| == |events|
  {
    && x != w && Candidate(Done(events), w, x)
    && First(events, All(|events|), x) < First(events, kept, x)
    && First(events, kept, w) < First(events, kept, x)
  }

  lemma IdsOrdered(events: seq<Event>, kept: seq<bool>, i: nat, j: nat)
    requires |kept| == |events|
    requires i < |Seen(Thinned(events, kept))| && j < |Seen(Thinned(events, kept))|
    ensures var ids := Seen(Thinned(events, kept));
            j < i <==> First(events, kept, ids[j]) < First(events, kept, ids[i])
  {
    hide First, Seen, Thinned;
    SeenOrdered(events, kept);
  }

  /** The answer stays the same item if and only if no candidate overtakes it. */
  lemma AnswerStays(events: seq<Event>, kept: seq<bool>, w: string)
    requires CompletesOnce(events) && Keeps(events, kept) && AnswersWith(events, w)
    ensures AnswersWith(Thinned(events, kept), w) <==> forall x :: !Overtakes(events, kept, w, x)
  {
    hide First, Wins, AnswersWith, Overtakes, Thinned, CompletesOnce, LastAmong;
    var thin, done := Thinned(events, kept), Done(events);
    SameDone(events, kept);
    StillOnce(events, kept);
    WinnerDone(events, w);
    AnswerIsLast(events, w);
    AnswerIsLast(thin, w);
    forall x ensures Overtakes(events, kept, w, x) <==>
                     x != w && Candidate(done, w, x) && First(events, kept, w) < First(events, kept, x)
    {
      OvertakesLater(events, kept, w, x);
    }
    LaterInSeen(events, kept, w);
  }

  lemma WinnerDone(events: seq<Event>, w: string)
    requires AnswersWith(events, w)
    ensures w in Done(events)
  {
  }

  /** A candidate that comes after the answer has lost its first frame. */
  lemma OvertakesLater(events: seq<Event>, kept: seq<bool>, w: string, x: string)
    requires CompletesOnce(events) && Keeps(events, kept) && AnswersWith(events, w)
    ensures Overtakes(events, kept, w, x) <==>
            x != w && Candidate(Done(events), w, x) && First(events, kept, w) < First(events, kept, x)
  {
    hide First, Wins, AnswersWith;
    if x != w && Candidate(Done(events), w, x) {
      var all := All(|events|);
      AnswerIsLast(events, w);
      SeenMembers(events, w);
      SeenMembers(events, x);
      var i :| 0 <= i < |Seen(events)| && Seen(events)[i] == w;
      var j :| 0 <= j < |Seen(events)| && Seen(events)[j] == x;
      AllThinned(events);
      IdsOrdered(events, all, i, j);
      KeptFirst(events, kept, w);
    }
  }

  /** Among the ids seen, later means that the first frame stands later. */
  lemma LaterInSeen(events: seq<Event>, kept: seq<bool>, w: string)
    requires Keeps(events, kept) && w in Done(events)
    ensures LastAmong(Seen(Thinned(events, kept)), Done(events), w) <==>
            forall x | x != w && Candidate(Done(events), w, x) :: First(events, kept, x) <= First(events, kept, w)
  {
    hide First, Thinned, Seen, Done;
    var thin, ids := Thinned(events, kept), Seen(Thinned(events, kept));
    SameDone(events, kept);
    forall x | x in Done(events) ensures x in ids { SeenMembers(thin, x); }
    forall i: nat, j: nat | i < |ids| && j < |ids|
      ensures j < i <==> First(events, kept, ids[j]) < First(events, kept, ids[i])
    {
      IdsOrdered(events, kept, i, j);
    }
    var i :| 0 <= i < |ids| && ids[i] == w;
    if LastAmong(ids, Done(events), w) {
      forall x | x != w && Candidate(Done(events), w, x) ensures First(events, kept, x) <= First(events, kept, w) {
        var j :| 0 <= j < |ids| && ids[j] == x;
      }
    } else {
      var k, j :|
        0 <= k < |ids| && 0 <= j < |ids| && ids[k] == w && ids[j] != w && Candidate(Done(events), w, ids[j]) && k <= j;
      assert k != j;
      assert First(events, kept, ids[k]) < First(events, kept, ids[j]);
    }
  }

  /** Let `w` be the item that history answers with. The reader of a thinned stream answers with some completed item,
  and that is `w` if and only if no candidate overtakes it; then it says what history says. */
  lemma ThinnedAnswer(events: seq<Event>, kept: seq<bool>, items: seq<Item>, w: string) returns (a: string)
    requires CompletesOnce(events) && Keeps(events, kept) && Messages(items) == History(events)
    requires AnswersWith(events, w)
    ensures w in Done(events) && a in Done(events)
    ensures NativeAnswer(items) == (Done(events)[w].text, Done(events)[w].final)
    ensures var r := Read(NOTHING, Thinned(events, kept)); (r.text, r.final) == (Done(events)[a].text, Done(events)[a].final)
    ensures a == w <==> forall x :: !Overtakes(events, kept, w, x)
  {
    hide First, Wins, AnswersWith, Overtakes, Thinned, CompletesOnce, Candidate;
    WinnerDone(events, w);
    StreamAgreesWithHistory(events, items);
    var v := SomeAnswer(events);
    OneAnswer(events, v, w);
    SameDone(events, kept);
    StillOnce(events, kept);
    a := SomeAnswer(Thinned(events, kept));
    AnswerStays(events, kept, w);
    if AnswersWith(Thinned(events, kept), w) { OneAnswer(Thinned(events, kept), a, w); }
  }

  // ---- it does happen ----

  const EARLY := Message("first", false)
  const LATE := Message("second", false)
  const BOTH := [Started("a"), Started("b"), Finished("b", LATE), Finished("a", EARLY)]
  const LOST := [false, false, true, true]

  /** Two items start in order and complete in the other; both starts are discarded, and the stream answers with the
  older item. */
  lemma ThinningChangesTheAnswer()
    ensures CompletesOnce(BOTH) && Keeps(BOTH, LOST)
    ensures Read(NOTHING, BOTH).text == "second" && Read(NOTHING, Thinned(BOTH, LOST)).text == "first"
  {
    hide Thinned, Read;
    ThinTwo(Started("a"), Started("b"), Finished("b", LATE), Finished("a", EARLY));
    ReadTwo(Finished("b", LATE), Finished("a", EARLY));
    ReadFour(Started("a"), Started("b"), Finished("b", LATE), Finished("a", EARLY));
  }

  lemma ThinTwo(e0: Event, e1: Event, e2: Event, e3: Event)
    ensures Thinned([e0, e1, e2, e3], LOST) == [e2, e3]
  {
    hide Thinned;
    ThinNothing();
    ThinnedNext([], [], e0, false);
    ThinnedNext([e0], [false], e1, false);
    ThinnedNext([e0, e1], [false, false], e2, true);
    ThinnedNext([e0, e1, e2], [false, false, true], e3, true);
    assert [] + [e0] == [e0] && [e0] + [e1] == [e0, e1] && [e0, e1] + [e2] == [e0, e1, e2];
    assert [e0, e1, e2] + [e3] == [e0, e1, e2, e3];
    assert [] + [false] == [false] && [false] + [false] == [false, false] && [false, false] + [true] == [false, false, true];
    assert [false, false, true] + [true] == LOST;
  }

  lemma ThinNothing()
    ensures Thinned([], []) == []
  {
  }

  lemma ReadTwo(e2: Event, e3: Event)
    requires e2 == Finished("b", LATE) && e3 == Finished("a", EARLY)
    ensures Read(NOTHING, [e2, e3]).text == "first"
  {
    Nexts(NOTHING, [], e2);
    Nexts(NOTHING, [e2], e3);
    assert [] + [e2] == [e2] && [e2] + [e3] == [e2, e3];
  }

  lemma ReadFour(e0: Event, e1: Event, e2: Event, e3: Event)
    requires e0 == Started("a") && e1 == Started("b") && e2 == Finished("b", LATE) && e3 == Finished("a", EARLY)
    ensures Read(NOTHING, [e0, e1, e2, e3]).text == "second"
  {
    hide Read;
    assert [e0, e1] + [e2] == [e0, e1, e2] && [e0, e1, e2] + [e3] == [e0, e1, e2, e3];
    ReadStarts(e0, e1);
    ReadNext([e0, e1], e2);
    ReadNext([e0, e1, e2], e3);
    var orders := map["a" := 1, "b" := 2];
    assert Answers.Take(Reader("", 0, false, orders), e2) == Reader("second", 2, false, orders);
    assert Answers.Take(Reader("second", 2, false, orders), e3) == Reader("second", 2, false, orders);
  }

  lemma ReadStarts(e0: Event, e1: Event)
    requires e0 == Started("a") && e1 == Started("b")
    ensures Read(NOTHING, [e0, e1]) == Reader("", 0, false, map["a" := 1, "b" := 2])
  {
    hide Read;
    ReadNext([], e0);
    ReadNext([e0], e1);
    assert [] + [e0] == [e0] && [e0] + [e1] == [e0, e1];
    ReadNothing();
    assert map[]["a" := 1]["b" := 2] == map["a" := 1, "b" := 2];
  }

  lemma ReadNothing()
    ensures Read(NOTHING, []) == Reader("", 0, false, map[])
  {
  }

  lemma ReadNext(events: seq<Event>, e: Event)
    ensures Read(NOTHING, events + [e]) == Answers.Take(Read(NOTHING, events), e)
  {
    assert (events + [e])[..|events|] == events;
  }
}
