/** The routed notifications of the Codex connection (codex/rpc.go:169-360, 437-468): one bounded FIFO for a thread
and its children, which makes room by discarding its oldest display frame and never a control frame. */
module Notifications {
  import opened Wrappers

  datatype Frame = Frame(id: string, name: string, thread: string)

  const CAPACITY: nat := 512

  /** Answers, terminal signals and requests may not be discarded. */
  predicate Critical(m: Frame) {
    m.id != "" || m.name in {"turn/completed", "item/completed", "rawResponse/completed"}
  }

  // ---- thinning: what a reader may still rely on ----

  /** `kept` is `all` with `n` display frames left out. */
  predicate Thins(all: seq<Frame>, kept: seq<Frame>, n: nat)
    decreases |all|
  {
    if all == [] then kept == [] && n == 0
    else
      var last, init := all[|all| - 1], all[..|all| - 1];
      || (kept != [] && kept[|kept| - 1] == last && Thins(init, kept[..|kept| - 1], n))
      || (n > 0 && !Critical(last) && Thins(init, kept, n - 1))
  }

  function Controls(frames: seq<Frame>): seq<Frame> {
    if frames == [] then []
    else
      var last := frames[|frames| - 1];
      Controls(frames[..|frames| - 1]) + (if Critical(last) then [last] else [])
  }

  lemma ThinsAppend(all: seq<Frame>, kept: seq<Frame>, n: nat, m: Frame)
    requires Thins(all, kept, n)
    ensures Thins(all + [m], kept + [m], n)
  {
    assert (all + [m])[..|all|] == all && (kept + [m])[..|kept|] == kept;
  }

  /** Leaving one more display frame out. */
  lemma {:induction false} ThinsDrop(all: seq<Frame>, kept: seq<Frame>, n: nat, p: nat)
    requires Thins(all, kept, n) && p < |kept| && !Critical(kept[p])
    ensures Thins(all, kept[..p] + kept[p + 1..], n + 1)
    decreases |all|
  {
    var last, init := all[|all| - 1], all[..|all| - 1];
    var kept', rest := kept[..p] + kept[p + 1..], kept[..|kept| - 1];
    if kept[|kept| - 1] == last && Thins(init, rest, n) {
      if p == |kept| - 1 {
        assert kept' == rest;
      } else {
        ThinsDrop(init, rest, n, p);
        assert kept'[..|kept'| - 1] == rest[..p] + rest[p + 1..];
      }
    } else {
      ThinsDrop(init, kept, n - 1, p);
    }
  }

  /** Every control frame is kept, in order, and every frame is accounted for. */
  lemma {:induction false} ThinsFacts(all: seq<Frame>, kept: seq<Frame>, n: nat)
    requires Thins(all, kept, n)
    ensures Controls(kept) == Controls(all) && |all| == |kept| + n
    decreases |all|
  {
    if all != [] {
      var last, init := all[|all| - 1], all[..|all| - 1];
      if kept != [] && kept[|kept| - 1] == last && Thins(init, kept[..|kept| - 1], n) {
        ThinsFacts(init, kept[..|kept| - 1], n);
      } else {
        ThinsFacts(init, kept, n - 1);
      }
    }
  }

  /** What is kept is a subsequence: its frames sit at increasing places of `all`. */
  lemma {:induction false} ThinsPlaces(all: seq<Frame>, kept: seq<Frame>, n: nat) returns (at: seq<nat>)
    requires Thins(all, kept, n)
    ensures |at| == |kept| && (forall i | 0 <= i < |at| :: at[i] < |all| && all[at[i]] == kept[i])
    ensures forall i, j | 0 <= i < j < |at| :: at[i] < at[j]
    decreases |all|
  {
    if all == [] {
      at := [];
    } else {
      var last, init := all[|all| - 1], all[..|all| - 1];
      if kept != [] && kept[|kept| - 1] == last && Thins(init, kept[..|kept| - 1], n) {
        var rest := ThinsPlaces(init, kept[..|kept| - 1], n);
        at := rest + [|all| - 1];
      } else {
        at := ThinsPlaces(init, kept, n - 1);
      }
    }
  }

  /** All frames but the first display frame, and whether there was one. */
  function Kept(frames: seq<Frame>): (seq<Frame>, bool) {
    if frames == [] then ([], false)
    else
      var (kept, found) := Kept(frames[..|frames| - 1]);
      var last := frames[|frames| - 1];
      if !found && !Critical(last) then (kept, true) else (kept + [last], found)
  }

  lemma KeptNext(frames: seq<Frame>, m: Frame)
    ensures var (kept, found) := Kept(frames);
            Kept(frames + [m]) == if !found && !Critical(m) then (kept, true) else (kept + [m], found)
  {
    assert (frames + [m])[..|frames|] == frames;
  }

  /** The frame left out is the oldest that is not critical. */
  lemma {:induction false} FirstDisplay(frames: seq<Frame>) returns (p: nat)
    ensures if Kept(frames).1
            then p < |frames| && !Critical(frames[p]) && (forall i | 0 <= i < p :: Critical(frames[i])) &&
                 Kept(frames).0 == frames[..p] + frames[p + 1..]
            else Kept(frames).0 == frames && forall i | 0 <= i < |frames| :: Critical(frames[i])
  {
    p := 0;
    if frames != [] {
      var init, last := frames[..|frames| - 1], frames[|frames| - 1];
      p := FirstDisplay(init);
      assert frames == init + [last];
      if Kept(init).1 {
        assert init[..p] + init[p + 1..] + [last] == frames[..p] + frames[p + 1..];
      } else if !Critical(last) {
        p := |init|;
        assert frames[..p] + frames[p + 1..] == init;
      }
    }
  }

  lemma {:induction false} ControlsCount(frames: seq<Frame>)
    ensures forall m | Critical(m) :: multiset(Controls(frames))[m] == multiset(frames)[m]
  {
    if frames != [] {
      var init, last := frames[..|frames| - 1], frames[|frames| - 1];
      ControlsCount(init);
      assert frames == init + [last];
    }
  }

  // ---- one routed channel ----

  class Channel {
    const capacity: nat
    var frames: seq<Frame>
    /** The wakeup, which coalesces. */
    var ready: bool
    /** The reader found the channel empty and sleeps on the wakeup. */
    var waiting: bool
    var dropped: nat
    ghost var sent: seq<Frame>
    ghost var read: seq<Frame>
    ghost var lost: nat
    ghost var taken: nat

    ghost predicate Valid()
      reads this
    {
      && 0 < capacity && |frames| <= capacity && Thins(sent, read + frames, lost) && lost == taken + dropped
      && (waiting && frames != [] ==> ready)
    }

    constructor (capacity: nat)
      requires 0 < capacity
      ensures Valid() && this.capacity == capacity && frames == [] && sent == [] && read == [] && !waiting && dropped == 0
    {
      this.capacity, frames, ready, waiting, dropped := capacity, [], false, false, 0;
      sent, read, lost, taken := [], [], 0, 0;
    }

    /** Takes a full channel out and puts it back without its first display frame (rpc.go:318-341). */
    method Evict(m: Frame) returns (discarded: bool)
      requires Valid() && |frames| == capacity
      modifies this`frames, this`sent, this`lost, this`dropped, this`ready
      ensures Valid() && ready
      ensures discarded <==> exists i | 0 <= i < |old(frames)| :: !Critical(old(frames)[i])
      ensures if discarded
              then sent == old(sent) + [m] && lost == old(lost) + 1 && frames == Kept(old(frames)).0 + [m]
              else frames == old(frames) && sent == old(sent) && lost == old(lost)
    {
      hide Thins, Kept;
      var buffered;
      ghost var was := frames;
      buffered, discarded := Drain();
      ghost var p := FirstDisplay(was);
      if discarded {
        buffered := buffered + [m];
        dropped := dropped + 1;
        DropFrom(sent, read, was, lost, p, m);
        sent, lost := sent + [m], lost + 1;
      }
      Refill(buffered);
      ready := true;
    }

    /** Receives everything, keeping all but the first display frame. */
    method Drain() returns (buffered: seq<Frame>, discarded: bool)
      modifies this`frames
      ensures frames == [] && (buffered, discarded) == Kept(old(frames))
    {
      buffered, discarded := [], false;
      ghost var was := frames;
      for i := 0 to |frames|
        invariant frames == was[i..] && (buffered, discarded) == Kept(was[..i])
      {
        KeptNext(was[..i], was[i]);
        assert was[..i] + [was[i]] == was[..i + 1];
        var older := frames[0];
        frames := frames[1..];
        if !discarded && !Critical(older) {
          discarded := true;
        } else {
          buffered := buffered + [older];
        }
      }
      assert was[..|was|] == was;
    }

    method Refill(buffered: seq<Frame>)
      requires frames == []
      modifies this`frames
      ensures frames == buffered
    {
      for i := 0 to |buffered|
        invariant frames == buffered[..i]
      {
        frames := frames + [buffered[i]];
      }
    }

    /** A frame arrives (rpc.go:295-341); false when the connection has to be given up instead. */
    method Offer(m: Frame) returns (ok: bool)
      requires Valid()
      modifies this`frames, this`sent, this`lost, this`dropped, this`ready
      ensures Valid() && ready
      ensures ok <==> |old(frames)| < capacity || exists i | 0 <= i < |old(frames)| :: !Critical(old(frames)[i])
      ensures if ok
              then sent == old(sent) + [m] &&
                   frames == (if |old(frames)| < capacity then old(frames) else Kept(old(frames)).0) + [m]
              else frames == old(frames) && sent == old(sent)
      ensures lost == old(lost) + (if ok && |old(frames)| == capacity then 1 else 0)
    {
      hide Thins, Kept;
      if |frames| < capacity {
        ThinsAppend(sent, read + frames, lost, m);
        assert read + frames + [m] == read + (frames + [m]);
        frames := frames + [m];
        sent := sent + [m];
        ready := true;
        return true;
      }
      ok := Evict(m);
    }

    /** The reader looks once, and sleeps if there is nothing (rpc.go:452-459). */
    method TryNext() returns (m: Option<Frame>)
      requires Valid()
      modifies this`frames, this`read, this`waiting
      ensures Valid() && m.Some? == (old(frames) != []) && waiting == m.None?
      ensures m.Some? ==> m.value == old(frames)[0] && frames == old(frames)[1..] && read == old(read) + [m.value]
      ensures m.None? ==> frames == old(frames) && read == old(read)
    {
      if frames == [] {
        waiting := true;
        return None;
      }
      assert read + frames == (read + [frames[0]]) + frames[1..];
      m := Some(frames[0]);
      read := read + [frames[0]];
      frames := frames[1..];
      waiting := false;
    }

    /** The reader wakes; a reader that sleeps over a frame always can. */
    method Wake()
      requires Valid() && ready
      modifies this`ready, this`waiting
      ensures Valid() && !waiting
    {
      ready, waiting := false, false;
    }

    method TakeDrops() returns (n: nat)
      requires Valid()
      modifies this`dropped, this`taken
      ensures Valid() && n == old(dropped) && dropped == 0 && taken == old(taken) + n
    {
      n := dropped;
      taken := taken + n;
      dropped := 0;
    }

    /** What the reader and the queue together hold of everything that was sent. */
    lemma NothingCriticalIsLost()
      requires Valid()
      ensures Controls(read + frames) == Controls(sent)
      ensures |sent| == |read| + |frames| + lost && lost == taken + dropped && |frames| <= capacity
      ensures waiting && frames != [] ==> ready
      ensures forall m: Frame | m.id != "" || m.name == "turn/completed" || m.name == "item/completed" || m.name == "rawResponse/completed" ::
                multiset(read + frames)[m] == multiset(sent)[m]
    {
      ThinsFacts(sent, read + frames, lost);
      ControlsCount(read + frames);
      ControlsCount(sent);
    }
  }

  lemma DropFrom(sent: seq<Frame>, read: seq<Frame>, frames: seq<Frame>, lost: nat, p: nat, m: Frame)
    requires Thins(sent, read + frames, lost) && p < |frames| && !Critical(frames[p])
    ensures Thins(sent + [m], read + (frames[..p] + frames[p + 1..] + [m]), lost + 1)
  {
    var kept, at := read + frames, |read| + p;
    ThinsDrop(sent, kept, lost, at);
    assert kept[..at] + kept[at + 1..] == read + (frames[..p] + frames[p + 1..]);
    ThinsAppend(sent, kept[..at] + kept[at + 1..], lost + 1, m);
    assert read + (frames[..p] + frames[p + 1..]) + [m] == read + (frames[..p] + frames[p + 1..] + [m]);
  }

  /** The connection is given up only over a full channel that has nothing to discard, or that lost its queue. */
  ghost predicate Stuck(c: Channel, queued: bool)
    reads c
  {
    |c.frames| == c.capacity && (queued ==> forall i | 0 <= i < |c.frames| :: Critical(c.frames[i]))
  }

  // ---- the connection's routes ----

  class Connection {
    var dead: bool
    var threads: map<string, Channel>
    var queues: set<Channel>
    /** Calls that await their answer, and the answer once it is there. */
    var pending: map<string, Option<Frame>>

    ghost predicate Valid()
      reads this, threads.Values, queues
    {
      && (forall t | t in threads :: threads[t].Valid()) && (forall c | c in queues :: c.Valid())
      && (dead ==> threads == map[] && queues == {})
    }

    constructor ()
      ensures Valid() && !dead && threads == map[] && queues == {} && pending == map[]
    {
      dead, threads, queues, pending := false, map[], {}, map[];
    }

    method RegisterThread(t: string) returns (c: Channel)
      requires Valid()
      modifies this`threads, this`queues
      ensures Valid() && c.Valid()
      ensures !old(dead) && t in old(threads) ==> c == old(threads)[t] && threads == old(threads) && queues == old(queues)
      ensures !old(dead) && t !in old(threads) ==>
                fresh(c) && c.frames == [] && c.capacity == 512 && threads == old(threads)[t := c] && queues == old(queues) + {c}
      ensures old(dead) ==> fresh(c) && threads == old(threads) && queues == old(queues)
    {
      if dead {
        c := new Channel(1);
        return;
      }
      if t in threads { return threads[t]; }
      c := new Channel(CAPACITY);
      threads := threads[t := c];
      queues := queues + {c};
    }

    method RouteThread(t: string, c: Channel)
      requires Valid() && c.Valid()
      modifies this`threads
      ensures Valid() && threads == if old(dead) then old(threads) else old(threads)[t := c]
    {
      if dead { return; }
      threads := threads[t := c];
    }

    /** The last route of a channel takes the queue with it. */
    method UnregisterThread(t: string)
      requires Valid()
      modifies this`threads, this`queues
      ensures Valid() && threads == old(threads) - {t}
      ensures t in old(threads) && old(threads)[t] !in threads.Values ==> queues == old(queues) - {old(threads)[t]}
      ensures t !in old(threads) || old(threads)[t] in threads.Values ==> queues == old(queues)
    {
      if t !in threads { return; }
      var c := threads[t];
      threads := threads - {t};
      var todo := threads.Keys;
      while todo != {}
        invariant todo <= threads.Keys && forall k | k in threads && k !in todo :: threads[k] != c
        decreases todo
      {
        var k :| k in todo;
        if threads[k] == c { return; }
        todo := todo - {k};
      }
      queues := queues - {c};
    }

    method FinishRead()
      requires Valid()
      modifies this`dead, this`threads, this`queues, this`pending
      ensures Valid() && dead
    {
      if dead { return; }
      dead, threads, queues, pending := true, map[], {}, map[];
    }

    /** One message of the shared reader (rpc.go:266-341). */
    method Dispatch(m: Frame)
      requires Valid()
      modifies this, threads.Values
      ensures Valid()
      ensures dead && !old(dead) ==> Routed(old(pending), old(threads), m)
      ensures dead && !old(dead) ==> old(m.thread in threads && Stuck(threads[m.thread], threads[m.thread] in queues))
      ensures !dead ==> threads == old(threads) && queues == old(queues)
      ensures !dead && Routed(old(pending), old(threads), m) ==>
                var c := old(threads)[m.thread];
                c.sent == old(c.sent) + [m] && c.read == old(c.read)
      ensures !dead ==> pending == (if m.id != "" && m.name == "" && m.id in old(pending) && old(pending)[m.id].None?
                                    then old(pending)[m.id := Some(m)] else old(pending))
      ensures forall c | c in old(threads).Values && !(Routed(old(pending), old(threads), m) && c == old(threads)[m.thread]) ::
                c.frames == old(c.frames) && c.sent == old(c.sent)
    {
      if m.id != "" && m.name == "" && m.id in pending {
        if pending[m.id].None? { pending := pending[m.id := Some(m)]; }
        return;
      }
      if m.thread == "" || m.thread !in threads { return; }
      var c := threads[m.thread];
      if c !in queues && |c.frames| == c.capacity {
        FinishRead();
        return;
      }
      var ok := c.Offer(m);
      if !ok { FinishRead(); }
    }
  }

  predicate Routed(pending: map<string, Option<Frame>>, threads: map<string, Channel>, m: Frame) {
    !(m.id != "" && m.name == "" && m.id in pending) && m.thread != "" && m.thread in threads
  }
}
