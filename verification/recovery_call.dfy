/** The loops of recovery as the code runs them (codex/recovery.go:85-333), against the answers of a network that
remembers what was asked of it and what it said. The labels of the machine in recovery.dfy are the image of exactly
those words, so each promise proved there of all runs is one about what the loops send and read. */
module RecoveryCall {
  import opened Wrappers
  import opened Recovery
  import opened RecoveryWords

  /** The native turns after `known` that hold the prompt (recovery.go:280-308). */
  method MatchNewTurns(known: set<string>, turns: seq<Turn>, prompt: string) returns (found: seq<Turn>)
    ensures found == NewTurns(known, turns, prompt)
  {
    found := [];
    for i := 0 to |turns|
      invariant found == NewTurns(known, turns[..i], prompt)
    {
      assert turns[..i + 1][..i] == turns[..i];
      var turn := turns[i];
      if turn.id in known { continue; }
      ghost var was := found;
      assert Copies(turn, 0) == [];
      for k := 0 to |turn.items|
        invariant found == was + Copies(turn, Matches(turn.items[..k], prompt))
      {
        assert turn.items[..k + 1][..k] == turn.items[..k];
        var says := Contains(turn.items[k], prompt);
        if says { found := found + [turn]; }
      }
      assert turn.items[..|turn.items|] == turn.items;
    }
    assert turns[..|turns|] == turns;
  }

  method Contains(item: Item, prompt: string) returns (says: bool)
    ensures says == Says(item, prompt)
  {
    if item.UserMessage? {
      for i := 0 to |item.texts|
        invariant prompt !in item.texts[..i]
      {
        if item.texts[i] == prompt { return true; }
      }
      assert item.texts[..|item.texts|] == item.texts;
    }
    says := false;
  }

  method Locate(turns: seq<Turn>, id: string) returns (found: Option<Turn>)
    ensures found == FindTurn(turns, id)
  {
    for i := 0 to |turns|
      invariant FindTurn(turns, id) == FindTurn(turns[i..], id)
    {
      assert turns[i..][1..] == turns[i + 1..];
      if id != "" && turns[i].id == id { return Some(turns[i]); }
    }
    found := None;
  }

  /** The answer of a native turn (recovery.go:315-331). */
  method ScanAnswer(items: seq<Item>) returns (answer: string, final: bool)
    ensures (answer, final) == NativeAnswer(items)
  {
    answer, final := "", false;
    for i := 0 to |items|
      invariant (answer, final) == NativeAnswer(items[..i])
    {
      assert items[..i + 1][..i] == items[..i];
      var item := items[i];
      if !item.AgentMessage? { continue; }
      if item.final || !final { answer, final := item.text, item.final; }
    }
    assert items[..|items|] == items;
  }

  /** What the network still has to say; once it says nothing more the caller's context is canceled. */
  class Network {
    var attempts: seq<Attempted>
    var replies: seq<Reply>
    var streams: seq<Streamed>
    var resumes: nat
    ghost var said: seq<Word>

    ghost predicate Valid()
      reads this
    {
      forall r | r in replies :: r.Acknowledged? ==> r.id != ""
    }

    ghost function Size(): nat
      reads this
    {
      |attempts| + |replies| + |streams| + resumes
    }

    method Attempt() returns (a: Option<Attempted>)
      requires Valid()
      modifies this`attempts, this`said
      ensures Valid() && (a.Some? ==> Size() < old(Size())) && (a.None? ==> Size() == old(Size()))
      ensures old(attempts) == (if a.Some? then [a.value] else []) + attempts && said == old(said) + [Tried(a)]
      ensures a.None? ==> attempts == []
    {
      a := None;
      if attempts != [] {
        a := Some(attempts[0]);
        attempts := attempts[1..];
      }
      said := said + [Tried(a)];
    }

    method Start(prompt: string) returns (r: Option<Reply>)
      requires Valid()
      modifies this`replies, this`said
      ensures Valid() && Size() <= old(Size()) && (r.Some? ==> Size() < old(Size()))
      ensures old(replies) == (if r.Some? then [r.value] else []) + replies && said == old(said) + [Sent(prompt, r)]
      ensures r.None? ==> replies == []
      ensures r.Some? && r.value.Acknowledged? ==> r.value.id != ""
    {
      r := None;
      if replies != [] {
        r := Some(replies[0]);
        replies := replies[1..];
      }
      said := said + [Sent(prompt, r)];
    }

    method Stream() returns (s: Option<Streamed>)
      requires Valid()
      modifies this`streams, this`said
      ensures Valid() && Size() <= old(Size()) && (s.Some? ==> Size() < old(Size()))
      ensures old(streams) == (if s.Some? then [s.value] else []) + streams && said == old(said) + [Heard(s)]
      ensures s.None? ==> streams == []
    {
      s := None;
      if streams != [] {
        s := Some(streams[0]);
        streams := streams[1..];
      }
      said := said + [Heard(s)];
    }

    method Confirm() returns (ok: bool)
      requires Valid()
      modifies this`resumes, this`said
      ensures Valid() && Size() <= old(Size()) && (ok ==> Size() < old(Size()))
      ensures ok == (old(resumes) > 0) && said == old(said) + [Confirmed(ok)]
    {
      ok := resumes > 0;
      if ok { resumes := resumes - 1; }
      said := said + [Confirmed(ok)];
    }
  }

  /** The active turn of a session, with the machine's state and labels beside it. */
  class ActiveTurn {
    var paused: bool
    var resume: bool
    var turn: string
    const task: string
    ghost var c: Client
    ghost var log: seq<Label>

    ghost predicate Logged()
      reads this
    {
      IsRun(Init(task), log) && After(Init(task), log) == c && c.task == task
    }

    ghost predicate Valid()
      reads this
    {
      Logged() && paused == c.paused && resume == c.resume && turn == c.turn
    }

    constructor (task: string)
      ensures Valid() && this.task == task && c == Init(task) && log == []
    {
      this.task, paused, resume, turn := task, false, false, "";
      c, log := Init(task), [];
    }

    ghost method Did(l: Label)
      requires Logged() && Enabled(c, l)
      modifies this`c, this`log
      ensures Logged() && c == Next(old(c), l) && log == old(log) + [l]
    {
      assert (log + [l])[..|log|] == log;
      TaskStays(c, l);
      c, log := Next(c, l), log + [l];
    }

    /** codex.go:488-501, while the call is paused or not; an ordinary steer goes to the daemon. */
    method Steer(message: string) returns (resumed: bool)
      requires Valid() && !c.phase.Ended? && !c.phase.Fresh?
      modifies this
      ensures Valid() && c == Steered(old(c), message) && resumed == SteerLands(old(c), message)
      ensures log == old(log) + [Label.Steer(message)]
    {
      Did(Label.Steer(message));
      if paused && Trim(message) == RESUME {
        if !resume {
          resume := true;
          paused := false;
        }
        return true;
      }
      resumed := false;
    }

    /** The first start, sent after a snapshot without a turn in progress (codex.go:385-403). */
    method RunTurn(net: Network, before: Snapshot) returns (result: Result)
      requires Valid() && c == Init(task) && log == [] && net.Valid() && !Busy(before.turns)
      modifies this, net
      ensures Valid() && c.phase == Ended(result)
      ensures Began(task, before, old(net.said), log, net.said) && old(net.said) <= net.said
      ensures forall k :: Words(net.said[|old(net.said)|..], k) == InTally(c.tally, k)
      ensures Bounded(net.said[|old(net.said)|..]) && c.tally.taken <= c.tally.pauses
    {
      hide Began, Words;
      result := FirstStart(net, before);
      BeganGrows(task, before, old(net.said), log, net.said);
      StartsAreBounded(task, log);
      forall k ensures Words(net.said[|old(net.said)|..], k) == InTally(c.tally, k) {
        WireCounts(task, before, old(net.said), log, net.said, k);
      }
    }

    method FirstStart(net: Network, before: Snapshot) returns (result: Result)
      requires Valid() && c == Init(task) && log == [] && net.Valid() && !Busy(before.turns)
      modifies this, net
      ensures Valid() && c.phase == Ended(result) && Began(task, before, old(net.said), log, net.said)
    {
      hide Told, Image;
      ghost var w0 := net.said;
      var reply := net.Start(task);
      Did(Label.Start(before, Replied(reply)));
      ghost var l1, w1 := log, net.said;
      assert l1 == First(before, reply);
      ToldNothing(task, l1, w1);
      match Replied(reply) {
        case Refused => result := Errored;
        case Lost => result := RecoverTurn(net, Ids(before.turns), task);
        case Acknowledged(id) =>
          turn := id;
          result := ReadAfterStart(net, Ids(before.turns), task);
      }
      BeganThen(task, before, w0, reply, log, net.said);
    }

    /** readTurn after an acknowledged start; a broken stream begins a new recovery (recovery.go:200-212). */
    method ReadAfterStart(net: Network, known: set<string>, prompt: string) returns (result: Result)
      requires Valid() && net.Valid() && c.phase == Reading(None) && known == c.known && prompt == c.prompt
      requires !c.paused && !c.resume && !c.confirmed
      modifies this, net
      ensures Valid() && c.phase == Ended(result)
      ensures Told(task, old(log), old(net.said), log, net.said)
      ensures net.Valid() && net.Size() <= old(net.Size())
      decreases net.Size(), 0
    {
      hide Told, Image;
      ghost var l0, w0 := log, net.said;
      ToldNothing(task, l0, w0);
      var stream := net.Stream();
      ToldNext(task, l0, w0, l0, w0, Heard(stream));
      match stream
      case None =>
        Did(Cancel(AtRead));
        result := Errored;
      case Some(Over(r)) =>
        Did(ReadEnds(r));
        result := r;
      case Some(Broken) =>
        Did(ReadLost);
        ghost var l1, w1 := log, net.said;
        result := RecoverTurn(net, known, prompt);
        ToldThen(task, l0, w0, l1, w1, log, net.said);
    }

    ghost predicate Ready(confirmed: bool, known: set<string>, prompt: string)
      reads this
    {
      Valid() && confirmed == c.confirmed && known == c.known && prompt == c.prompt && !c.resume && !c.paused
    }

    method RecoverTurn(net: Network, before: set<string>, first: string) returns (result: Result)
      requires Ready(false, before, first) && c.phase == Trying(1) && net.Valid()
      modifies this, net
      ensures Valid() && c.phase == Ended(result)
      ensures Told(task, old(log), old(net.said), log, net.said)
      ensures net.Valid() && net.Size() <= old(net.Size())
      decreases net.Size(), 4
    {
      hide Told, Image;
      ghost var l0, w0 := log, net.said;
      ToldNothing(task, l0, w0);
      var confirmed, known, prompt := false, before, first;
      while true
        invariant Ready(confirmed, known, prompt) && c.phase == Trying(1) && net.Valid()
        invariant net.Size() <= old(net.Size()) && Told(task, l0, w0, log, net.said)
        decreases net.Size()
      {
        var done;
        ghost var l1, w1 := log, net.said;
        done, confirmed, known, prompt := Batch(net, confirmed, known, prompt);
        ToldThen(task, l0, w0, l1, w1, log, net.said);
        if done.Some? { return done.value; }
        paused := true;
        l1, w1 := log, net.said;
        var ok := AwaitResume(net);
        ToldThen(task, l0, w0, l1, w1, log, net.said);
        if !ok { return Errored; }
        confirmed := true;
      }
    }

    /** The pause: nothing but the operator's resume, given through `Steer`, ends it (recovery.go:229-244). */
    method AwaitResume(net: Network) returns (ok: bool)
      requires Valid() && c.phase.Waiting? && c.paused && !c.resume && net.Valid()
      modifies this, net
      ensures Valid() && net.Valid() && net.Size() <= old(net.Size())
      ensures ok ==> net.Size() < old(net.Size()) && c.phase == Trying(1) && c.confirmed && !c.paused && !c.resume
      ensures ok ==> c.known == old(c).known && c.prompt == old(c).prompt
      ensures !ok ==> c.phase == Ended(Errored)
      ensures Told(task, old(log), old(net.said), log, net.said) && net.said == old(net.said) + [Confirmed(ok)]
    {
      hide Told, Image;
      ghost var l0, w0 := log, net.said;
      ToldNothing(task, l0, w0);
      ok := net.Confirm();
      ToldNext(task, l0, w0, l0, w0, Confirmed(ok));
      if !ok {
        Did(Cancel(AtPause));
        return;
      }
      assert Trim(RESUME) == RESUME;
      var landed := Steer(RESUME);
      Did(Take);
      assert log == l0 + [Label.Steer(RESUME), Take];
      resume, paused := false, false;
    }

    /** At most three attempts; without a result the machine is paused and the flag still has to say so. */
    method Batch(net: Network, confirmed0: bool, known0: set<string>, prompt0: string)
      returns (done: Option<Result>, confirmed: bool, known: set<string>, prompt: string)
      requires Ready(confirmed0, known0, prompt0) && c.phase == Trying(1) && net.Valid()
      modifies this, net
      ensures net.Valid() && net.Size() <= old(net.Size())
      ensures done.Some? ==> Valid() && c.phase == Ended(done.value)
      ensures done.None? ==> Logged() && c.phase.Waiting? && c.paused && !paused && !c.resume && !resume && turn == c.turn
      ensures done.None? ==> confirmed == c.confirmed && known == c.known && prompt == c.prompt
      ensures Told(task, old(log), old(net.said), log, net.said)
      decreases net.Size(), 3
    {
      hide Told, Image;
      ghost var l0, w0 := log, net.said;
      ToldNothing(task, l0, w0);
      confirmed, known, prompt := confirmed0, known0, prompt0;
      var attempt := 1;
      while attempt <= ATTEMPTS
        invariant 1 <= attempt <= ATTEMPTS + 1 && net.Valid() && net.Size() <= old(net.Size()) && Logged()
        invariant attempt <= ATTEMPTS ==> Ready(confirmed, known, prompt) && c.phase == Trying(attempt)
        invariant attempt > ATTEMPTS ==> Halted(confirmed, known, prompt)
        invariant Told(task, l0, w0, log, net.said)
        decreases ATTEMPTS - attempt
      {
        ghost var l1, w1 := log, net.said;
        var a := net.Attempt();
        ToldNext(task, l0, w0, l1, w1, Tried(a));
        if a.None? {
          Did(Cancel(AtTry));
          return Some(Errored), confirmed, known, prompt;
        }
        match a.value {
          case BatchOver =>
            Did(Expire);
            break;
          case Unreadable => Did(AttemptLost);
          case Got(s) =>
            ghost var w2 := net.said;
            done, confirmed, known, prompt := Examine(net, s, attempt, confirmed, known, prompt);
            ToldThen(task, l0, w0, l1 + [Look(s)], w2, log, net.said);
            if done.Some? { return; }
        }
        attempt := attempt + 1;
      }
      done := None;
    }

    /** Paused in the machine, not yet in the field. */
    ghost predicate Halted(confirmed: bool, known: set<string>, prompt: string)
      reads this
    {
      && Logged() && c.phase.Waiting? && c.paused && !paused && !c.resume && !resume && turn == c.turn
      && confirmed == c.confirmed && known == c.known && prompt == c.prompt
    }

    ghost predicate Onward(attempt: nat, confirmed: bool, known: set<string>, prompt: string)
      reads this
    {
      if attempt < ATTEMPTS then Ready(confirmed, known, prompt) && c.phase == Trying(attempt + 1)
      else Halted(confirmed, known, prompt)
    }

    /** One snapshot (recovery.go:119-223). */
    method Examine(net: Network, s: Snapshot, attempt: nat, confirmed0: bool, known0: set<string>, prompt0: string)
      returns (done: Option<Result>, confirmed: bool, known: set<string>, prompt: string)
      requires Ready(confirmed0, known0, prompt0) && c.phase == Trying(attempt) && AttemptOk(attempt) && net.Valid()
      modifies this, net
      ensures net.Valid() && net.Size() <= old(net.Size())
      ensures done.Some? ==> Valid() && c.phase == Ended(done.value)
      ensures done.None? ==> Onward(attempt, confirmed, known, prompt)
      ensures Told(task, old(log) + [Look(s)], old(net.said), log, net.said)
      decreases net.Size(), 2
    {
      confirmed, known, prompt := confirmed0, known0, prompt0;
      var tracked := Follows(s, known, prompt);
      var choice := Choose(s, tracked, confirmed);
      Did(Look(s));
      turn := tracked;
      done := None;
      match choice {
        case Finish(text) => done := Some(Answered(text));
        case Fail => done := Some(Errored);
        case Follow => done := FollowOn(net, attempt);
        case Again =>
          done, known, prompt := StartAgain(net, s, attempt);
          confirmed := false;
        case Retry =>
      }
    }

    /** The turn to track (recovery.go:121-136). */
    method Follows(s: Snapshot, known: set<string>, prompt: string) returns (tracked: string)
      requires Valid() && known == c.known && prompt == c.prompt
      ensures tracked == Track(c, s)
    {
      tracked := turn;
      if tracked == "" {
        var candidates := MatchNewTurns(known, s.turns, prompt);
        if |candidates| == 1 { tracked := candidates[0].id; }
      }
    }

    /** The switch (recovery.go:137-223). */
    method Choose(s: Snapshot, tracked: string, confirmed: bool) returns (choice: Choice)
      requires confirmed == c.confirmed
      ensures choice == Decide(c, s, tracked)
    {
      var current := Locate(s.turns, tracked);
      if current.Some? && current.value.status.Completed? {
        var answer, final := ScanAnswer(current.value.items);
        return if Blank(answer) then Retry else Finish(answer);
      }
      if current.Some? && current.value.status.Failed? { return Fail; }
      if current.Some? && current.value.status.InProgress? && s.status.Active? { return Follow; }
      if confirmed && s.status.Idle? && (current.Some? || tracked == "") { return Again; }
      choice := Retry;
    }

    /** Reads on in the recovered turn (recovery.go:158-177). */
    method FollowOn(net: Network, attempt: nat) returns (done: Option<Result>)
      requires Valid() && c.phase == Reading(Some(attempt)) && net.Valid() && !c.resume && !c.paused
      modifies this, net
      ensures net.Valid() && net.Size() <= old(net.Size())
      ensures exists s :: net.said == old(net.said) + [Heard(s)] && log == old(log) + ImageOf(Heard(s))
      ensures done.Some? ==> Valid() && c.phase == Ended(done.value)
      ensures done.None? ==> Onward(attempt, old(c).confirmed, old(c).known, old(c).prompt)
      ensures Told(task, old(log), old(net.said), log, net.said)
    {
      hide Told, Image;
      ghost var l0, w0 := log, net.said;
      ToldNothing(task, l0, w0);
      var stream := net.Stream();
      ToldNext(task, l0, w0, l0, w0, Heard(stream));
      match stream
      case None =>
        Did(Cancel(AtRead));
        done := Some(Errored);
      case Some(Over(r)) =>
        Did(ReadEnds(r));
        done := Some(r);
      case Some(Broken) =>
        Did(ReadLost);
        done := None;
    }

    /** The follow-up start (recovery.go:178-218). */
    method StartAgain(net: Network, s: Snapshot, attempt: nat)
      returns (done: Option<Result>, known: set<string>, prompt: string)
      requires Valid() && c.phase == Restarting(attempt, s) && AttemptOk(attempt) && net.Valid()
      requires !c.resume && !c.paused
      modifies this, net
      ensures net.Valid() && net.Size() <= old(net.Size())
      ensures done.Some? ==> Valid() && c.phase == Ended(done.value)
      ensures done.None? ==> Onward(attempt, false, known, prompt)
      ensures Told(task, old(log), old(net.said), log, net.said)
      ensures |net.said| > |old(net.said)| && net.said[|old(net.said)|].Sent?
      decreases net.Size(), 1
    {
      hide Told, Image, Next;
      ghost var l0, w0 := log, net.said;
      ToldNothing(task, l0, w0);
      known, prompt := Ids(s.turns), FOLLOW_UP + task;
      var reply := net.Start(prompt);
      RestartNext(c, Replied(reply));
      Did(Restart(Replied(reply)));
      ToldNext(task, l0, w0, l0, w0, Sent(prompt, reply));
      turn := "";
      ghost var l1, w1 := log, net.said;
      match Replied(reply)
      case Refused => done := Some(Errored);
      case Lost => done := None;
      case Acknowledged(id) =>
        turn := id;
        var result := ReadAfterStart(net, known, prompt);
        ToldGrows(task, l1, w1, log, net.said);
        ToldThen(task, l0, w0, l1, w1, log, net.said);
        done := Some(result);
    }
  }

  lemma RestartNext(c: Client, reply: Reply)
    requires Enabled(c, Restart(reply)) && AttemptOk(c.phase.attempt)
    ensures var c', k := Next(c, Restart(reply)), c.phase.attempt;
            && c'.known == Ids(c.phase.seen.turns) && c'.prompt == FOLLOW_UP + c.task && !c'.confirmed
            && c'.resume == c.resume && c'.paused == (c.paused || (reply.Lost? && k == ATTEMPTS))
            && c'.turn == (if reply.Acknowledged? then reply.id else "")
            && c'.phase == match reply
                           case Acknowledged(_) => Reading(None)
                           case Lost => if k < ATTEMPTS then Trying(k + 1) else Waiting
                           case Refused => Ended(Errored)
  {
  }

  lemma TaskStays(c: Client, l: Label)
    requires Enabled(c, l)
    ensures Next(c, l).task == c.task
  {
    if l.Look? { LookedTask(c, l.snapshot); }
  }

  lemma LookedTask(c: Client, s: Snapshot)
    requires c.phase.Trying?
    ensures Looked(c, s).task == c.task
  {
  }
}
