/** What one step of recovery decides, said of the snapshot, the reply and the message as they are
(codex/recovery.go:85-246, 271-331, codex/codex.go:488-501). */
module RecoverySteps {
  import opened Wrappers
  import opened Recovery

  /** The snapshot shows this turn under the id: the first that has it. */
  predicate Shows(s: Snapshot, id: string, t: Turn) {
    id != "" && exists i :: 0 <= i < |s.turns| && s.turns[i] == t && t.id == id && forall j | 0 <= j < i :: s.turns[j].id != id
  }

  lemma {:induction false} FoundExactly(turns: seq<Turn>, id: string)
    ensures forall t :: FindTurn(turns, id) == Some(t) <==> Shows(Snapshot(Idle, turns), id, t)
  {
    if turns != [] {
      var rest := turns[1..];
      FoundExactly(rest, id);
      forall t ensures FindTurn(turns, id) == Some(t) <==> Shows(Snapshot(Idle, turns), id, t) {
        if Shows(Snapshot(Idle, turns), id, t) {
          var i :| 0 <= i < |turns| && turns[i] == t && t.id == id && forall j | 0 <= j < i :: turns[j].id != id;
          if i > 0 {
            assert rest[i - 1] == t && forall j | 0 <= j < i - 1 :: rest[j] == turns[j + 1];
            assert turns[0].id != id;
          }
        }
        if Shows(Snapshot(Idle, rest), id, t) && turns[0].id != id {
          var i :| 0 <= i < |rest| && rest[i] == t && t.id == id && forall j | 0 <= j < i :: rest[j].id != id;
          assert turns[i + 1] == t && forall j | 0 < j < i + 1 :: turns[j] == rest[j - 1];
        }
        if turns[0].id == id && id != "" { assert turns[0] == t ==> Shows(Snapshot(Idle, turns), id, t); }
      }
    }
  }

  lemma ShownIsFound(s: Snapshot, id: string)
    ensures forall t :: FindTurn(s.turns, id) == Some(t) <==> Shows(s, id, t)
  {
    FoundExactly(s.turns, id);
    assert forall t :: Shows(Snapshot(Idle, s.turns), id, t) <==> Shows(s, id, t);
  }

  /** After a try that decided nothing: the next of three, or the pause. */
  predicate TriesNext(c: Client, attempt: nat) {
    if attempt < 3 then c.phase == Trying(attempt + 1) && !c.paused else c.phase == Waiting && c.paused
  }

  /** What a look at a snapshot decides, whether or not the operator has confirmed: a completed turn with an answer ends
  the call with that answer, a failed one with an error, one in progress in an active thread is read on, and only a
  confirmed call starts again, on an idle thread. Everything else is tried again, three times, and then paused. */
  lemma LookExactly(c: Client, s: Snapshot)
    requires c.phase.Trying? && !c.paused
    ensures var id, c' := Track(c, s), Looked(c, s);
            && (forall text :: c'.phase == Ended(Answered(text)) <==>
                  exists t :: Shows(s, id, t) && t.status.Completed? && NativeAnswer(t.items).0 == text && !Blank(text))
            && (c'.phase == Ended(Errored) <==> exists t :: Shows(s, id, t) && t.status.Failed?)
            && (c'.phase.Reading? <==> s.status.Active? && exists t :: Shows(s, id, t) && t.status.InProgress?)
            && (c'.phase.Restarting? <==>
                  c.confirmed && s.status.Idle?
                  && (id == "" || exists t :: Shows(s, id, t) && (t.status.InProgress? || t.status.Interrupted?)))
            && (c'.phase.Ended? || c'.phase.Reading? || c'.phase.Restarting? || TriesNext(c', c.phase.attempt))
            && (c'.phase.Reading? ==> c'.phase == Reading(Some(c.phase.attempt)))
            && (c'.phase.Restarting? ==> c'.phase == Restarting(c.phase.attempt, s))
            && c'.turn == id && c'.confirmed == c.confirmed && c'.known == c.known && c'.prompt == c.prompt && c'.task == c.task
  {
    var id := Track(c, s);
    hide Track, Shows;
    ShownIsFound(s, id);
    assert forall t :: Shows(s, id, t) ==> id != "" by { ShownHasId(s, id); }
    if FindTurn(s.turns, id).Some? { assert Shows(s, id, FindTurn(s.turns, id).value); }
  }

  lemma ShownHasId(s: Snapshot, id: string)
    ensures forall t :: Shows(s, id, t) ==> id != ""
  {
  }

  /** The turn to track: the known one, or the only candidate. */
  lemma TrackIs(c: Client, s: Snapshot)
    ensures c.turn != "" ==> Track(c, s) == c.turn
    ensures c.turn == "" ==>
              Track(c, s) == (if |NewTurns(c.known, s.turns, c.prompt)| == 1 then NewTurns(c.known, s.turns, c.prompt)[0].id else "")
  {
  }

  ghost function Saying(items: seq<Item>, prompt: string): set<nat> {
    set i: nat | i < |items| && items[i].UserMessage? && prompt in items[i].texts
  }

  lemma SayingNext(items: seq<Item>, item: Item, prompt: string)
    ensures Saying(items + [item], prompt) ==
            if item.UserMessage? && prompt in item.texts then Saying(items, prompt) + {|items|} else Saying(items, prompt)
  {
    var all := items + [item];
    assert forall i: nat | i < |items| :: all[i] == items[i];
  }

  /** The matches are the user messages that have the prompt as one of their texts. */
  lemma {:induction false} MatchesExactly(items: seq<Item>, prompt: string)
    ensures Matches(items, prompt) == |Saying(items, prompt)|
  {
    hide Saying;
    if items == [] {
      NoneSaying(prompt);
    } else {
      var init, last := items[..|items| - 1], items[|items| - 1];
      MatchesExactly(init, prompt);
      SayingNext(init, last, prompt);
      SayingBelow(init, prompt);
      assert items == init + [last];
    }
  }

  lemma NoneSaying(prompt: string)
    ensures Saying([], prompt) == {}
  {
  }

  lemma SayingBelow(items: seq<Item>, prompt: string)
    ensures |items| !in Saying(items, prompt)
  {
  }

  ghost predicate IdsOf(known: set<string>, s: Snapshot) { forall id :: id in known <==> exists t :: t in s.turns && t.id == id }

  /** What a start leaves: what was there before it is known, its prompt is remembered, and the confirmation is used up. */
  lemma StartExactly(c: Client, before: Snapshot, reply: Reply)
    requires Enabled(c, Start(before, reply))
    ensures var c' := Next(c, Start(before, reply));
            && IdsOf(c'.known, before) && c'.prompt == c.task && !c'.confirmed
            && (match reply
                case Acknowledged(id) => c'.phase == Reading(None) && c'.turn == id
                case Lost => c'.phase == Trying(1) && c'.turn == ""
                case Refused => c'.phase == Ended(Errored))
  {
  }

  lemma AgainExactly(c: Client, reply: Reply)
    requires Enabled(c, Restart(reply)) && !c.paused
    ensures var c' := Next(c, Restart(reply));
            && IdsOf(c'.known, c.phase.seen) && c'.prompt == "Finish the original task:\n\n" + c.task && !c'.confirmed
            && (match reply
                case Acknowledged(id) => c'.phase == Reading(None) && c'.turn == id
                case Lost => c'.turn == "" && TriesNext(c', c.phase.attempt)
                case Refused => c'.phase == Ended(Errored))
  {
    hide IdsOf;
    assert IdsOf(Ids(c.phase.seen.turns), c.phase.seen) by { KnownIds(c.phase.seen); }
  }

  lemma KnownIds(s: Snapshot)
    ensures IdsOf(Ids(s.turns), s)
  {
  }

  /** A lost stream counts as one of the three tries if it was found by one, and otherwise begins them, unconfirmed. */
  lemma LossExactly(c: Client, l: Label)
    requires Enabled(c, l) && !c.paused && (l.ReadLost? || l.AttemptLost? || l.Expire?)
    ensures var c' := Next(c, l);
            && (l.ReadLost? && c.phase.within.None? ==> c'.phase == Trying(1) && !c'.confirmed)
            && (l.ReadLost? && c.phase.within.Some? ==> TriesNext(c', c.phase.within.value) && c'.confirmed == c.confirmed)
            && (l.AttemptLost? ==> TriesNext(c', c.phase.attempt) && c'.confirmed == c.confirmed)
            && (l.Expire? ==> c'.phase == Waiting && c'.paused)
            && c'.turn == c.turn && c'.known == c.known && c'.prompt == c.prompt
  {
  }

  /** A resume is the word with nothing but blanks around it. */
  predicate SaysResume(message: string) {
    exists i, j :: 0 <= i <= j <= |message| && Blank(message[..i]) && message[i..j] == "resume" && Blank(message[j..])
  }

  predicate Edged(s: string) { s == "" || (!Space(s[0]) && !Space(s[|s| - 1])) }

  lemma {:induction false} TrimExactly(s: string) returns (i: nat, j: nat)
    ensures i <= j <= |s| && Blank(s[..i]) && s[i..j] == Trim(s) && Blank(s[j..]) && Edged(Trim(s))
    decreases |s|
  {
    hide Blank;
    if s == "" {
      i, j := 0, 0;
      NoBlanks();
    } else if Space(s[0]) {
      i, j := TrimExactly(s[1..]);
      SkipFirst(s, i, j);
      i, j := i + 1, j + 1;
    } else if Space(s[|s| - 1]) {
      i, j := TrimExactly(s[..|s| - 1]);
      SkipLast(s, i, j);
    } else {
      i, j := 0, |s|;
      NoBlanks();
      assert s[..0] == "" && s[|s|..] == "" && s[0..|s|] == s;
    }
  }

  lemma NoBlanks()
    ensures Blank("")
  {
  }

  lemma SkipFirst(s: string, i: nat, j: nat)
    requires s != "" && i <= j <= |s| - 1
    ensures s[i + 1..j + 1] == s[1..][i..j] && s[j + 1..] == s[1..][j..]
    ensures Space(s[0]) && Blank(s[1..][..i]) ==> Blank(s[..i + 1])
  {
    assert s[..i + 1] == [s[0]] + s[1..][..i];
  }

  lemma SkipLast(s: string, i: nat, j: nat)
    requires s != "" && i <= j <= |s| - 1
    ensures s[..i] == s[..|s| - 1][..i] && s[i..j] == s[..|s| - 1][i..j]
    ensures Space(s[|s| - 1]) && Blank(s[..|s| - 1][j..]) ==> Blank(s[j..])
  {
    assert s[j..] == s[..|s| - 1][j..] + [s[|s| - 1]];
  }

  /** There is one way to trim to a word without blanks at its ends. */
  lemma TrimmedIsOne(s: string, i: nat, j: nat, k: nat, l: nat)
    requires i <= j <= |s| && k <= l <= |s| && i < j
    requires Blank(s[..i]) && Blank(s[j..]) && Edged(s[i..j]) && Blank(s[..k]) && Blank(s[l..]) && Edged(s[k..l])
    ensures s[i..j] == s[k..l]
  {
    BlankOutside(s, i, j);
    BlankOutside(s, k, l);
    assert s[i] == s[i..j][0] && s[j - 1] == s[i..j][j - i - 1];
    assert k <= i && j <= l;
    assert s[k] == s[k..l][0] && s[l - 1] == s[k..l][l - k - 1];
  }

  lemma BlankOutside(s: string, i: nat, j: nat)
    requires i <= j <= |s| && Blank(s[..i]) && Blank(s[j..])
    ensures forall x | 0 <= x < i || j <= x < |s| :: Space(s[x])
  {
    forall x | 0 <= x < i ensures Space(s[x]) { assert s[..i][x] == s[x]; }
    forall x | j <= x < |s| ensures Space(s[x]) { assert s[j..][x - j] == s[x]; }
  }

  lemma ResumeIsTrimmed(message: string)
    ensures Trim(message) == "resume" <==> SaysResume(message)
  {
    var i, j := TrimExactly(message);
    if SaysResume(message) {
      var k, l :| 0 <= k <= l <= |message| && Blank(message[..k]) && message[k..l] == "resume" && Blank(message[l..]);
      assert l - k == 6;
      TrimmedIsOne(message, k, l, i, j);
    }
  }

  /** Only a paused call takes a message for itself: the word that resumes it, once. */
  lemma SteerExactly(c: Client, message: string)
    ensures var c' := Steered(c, message);
            if c.paused && !c.resume && SaysResume(message)
            then c'.resume && !c'.paused && c'.tally.accepted == c.tally.accepted + 1 && c'.phase == c.phase
            else c' == c
  {
    ResumeIsTrimmed(message);
  }

  /** The pause is entered after the third try, or when the time of a batch is up, and in no other way. */
  lemma PauseIsLast(task: string, run: seq<Label>, l: Label)
    requires IsRun(Init(task), run) && Enabled(After(Init(task), run), l)
    ensures var c := After(Init(task), run);
            Next(c, l).phase.Waiting? && !c.phase.Waiting? ==>
              l.Expire? || (match c.phase
                            case Trying(k) => k == 3
                            case Reading(within) => within == Some(3)
                            case Restarting(k, _) => k == 3
                            case _ => false)
  {
    hide Track, Decide;
    RunKeeps(Init(task), run);
  }
}
