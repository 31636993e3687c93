/** A run from start-up in which two threads are inside one mutex at the same time. */
module MutexGap {
  import opened Links
  import opened Sched
  import opened SchedRuns
  import opened Mutex
  import M = Mutex

  const Q := Queue(0)
  const B := Thread(2)

  function Begin(): Sys {
    Boot(Config(65535, 1), [], {B}, {Q, Join(0), Join(1), Join(2)})
  }

  const ready := Fresh(Ready)

  /** The main thread and B, as the mutex sees them. */
  function Two(ring: seq<Id>, b: Tcb, waiters: seq<Id>): Sys
    requires ring != []
  {
    Sys(Config(65535, 1), map[IDLE := Fresh(Idle), MAIN := ready, B := b],
        ring, ring[0], [], map[Q := waiters, Join(0) := [], Join(1) := [], Join(2) := []], ring[0])
  }

  lemma Began()
    ensures Begin() == Two([MAIN], Fresh(Stopped), [])
  {
    var s, s' := Begin(), Two([MAIN], Fresh(Stopped), []);
    assert s.tcbs == s'.tcbs;
    assert s.queues == s'.queues;
    assert s.ring == s'.ring;
  }

  lemma Started()
    ensures Do(Begin(), Start(B)) == Two([MAIN, B], ready, [])
  {
    Began();
  }

  lemma Yielded(b: Tcb)
    ensures Do(Two([MAIN, B], b, []), Yield) == Two([B, MAIN], b, [])
  {
  }

  const waiting := ready.(waiting := Q)

  /** B in the queue of the mutex, still in the ring. */
  function Queued(): Sys {
    Two([B, MAIN], waiting, [B])
  }

  lemma LeavesRing()
    ensures Suspend(Queued(), B) == Queued().(ring := [MAIN], cursor := MAIN)
  {
    assert IndexOf([B, MAIN], B) == 0 && Without([B, MAIN], 0) == [MAIN];
    assert [MAIN][0..] + [MAIN][..0] == [MAIN];
  }

  lemma Pends()
    ensures PendCurrent(Queued(), 65535) == Two([MAIN], waiting.(state := Pending), [B])
  {
    hide Suspend;
    LeavesRing();
    var s := Two([MAIN], waiting.(state := Pending), [B]);
    assert Put(Queued().(ring := [MAIN], cursor := MAIN), B, waiting.(state := Pending)) == s.(current := B);
    assert Put(s.(current := B), B, waiting.(state := Pending)) == s.(current := B);
  }

  lemma Blocked()
    ensures Do(Two([B, MAIN], ready, []), Block(Q, 65535)) == Two([MAIN], waiting.(state := Pending), [B])
  {
    hide PendCurrent;
    Pends();
    var s := Two([B, MAIN], ready, []);
    assert Waiters(s, Q) + [B] == [B];
    assert Put(s.(queues := s.queues[Q := [B]]), B, waiting) == Queued();
  }

  /** After a handoff, with its wait-queue node initialised. */
  const given := ready.(clean := true)

  lemma Handed()
    ensures Do(Two([MAIN], waiting.(state := Pending), [B]), Handoff(Q)) == Two([MAIN, B], given, [])
  {
  }

  const mutex := Object(Q, false)

  const s1 := Two([MAIN, B], ready, [])
  const s2 := Two([B, MAIN], ready, [])
  const s3 := Two([MAIN], waiting.(state := Pending), [B])
  const s4 := Two([MAIN, B], given, [])
  const s5 := Two([B, MAIN], given, [])

  /** Main locks, B waits, main unlocks and locks again, B runs. */
  const calls := [Other(Start(B)), Lock(0), Other(Yield), Lock(65535), Unlock, Lock(0), Other(Yield)]

  ghost predicate Goes(w: World, op: Op, w': World) {
    Allowed(mutex, w, op) && w' == Apply(mutex, w, op)
  }

  lemma MainLocks()
    ensures Goes(World(Begin(), 0, Null, map[], {}), Other(Start(B)), World(s1, 0, Null, map[], {}))
    ensures Goes(World(s1, 0, Null, map[], {}), Lock(0), World(s1, 1, MAIN, map[MAIN := 1], {}))
  {
    hide Do;
    Began();
    Started();
    assert Enabled(Begin(), Start(B));
  }

  lemma SecondRuns()
    ensures Goes(World(s1, 1, MAIN, map[MAIN := 1], {}), Other(Yield), World(s2, 1, MAIN, map[MAIN := 1], {}))
  {
    hide Do;
    Yielded(ready);
    assert Enabled(s1, Yield);
  }

  lemma SecondWaits()
    ensures Goes(World(s2, 1, MAIN, map[MAIN := 1], {}), Lock(65535), World(s3, 1, MAIN, map[MAIN := 1], {}))
    ensures Goes(World(s3, 1, MAIN, map[MAIN := 1], {}), Unlock, World(s4, 1, MAIN, map[], {B}))
  {
    hide Do;
    Blocked();
    Handed();
    assert Waiters(s3, Q) == [B];
    assert map[MAIN := 1] - {MAIN} == map[];
  }

  lemma BothEnter()
    ensures Goes(World(s4, 1, MAIN, map[], {B}), Lock(0), World(s4, 1, MAIN, map[MAIN := 1], {B}))
    ensures Goes(World(s4, 1, MAIN, map[MAIN := 1], {B}), Other(Yield), World(s5, 1, B, map[MAIN := 1, B := 1], {}))
  {
    hide Do;
    Yielded(given);
    assert Enabled(s4, Yield);
  }

  lemma StartSound()
    ensures Inv(Begin()) && Q in Begin().queues && Waiters(Begin(), Q) == []
  {
    hide Inv;
    BootInv(Config(65535, 1), [], {B}, {Q, Join(0), Join(1), Join(2)});
  }

  /** The run from start-up is allowed, every lock in it succeeds, and it ends with both
      threads inside. */
  lemma TwoInside() returns (ws: seq<World>)
    ensures M.Run(mutex, ws, calls)
    ensures MAIN in ws[7].holds && B in ws[7].holds
  {
    hide Inv, Allowed, Apply, Waiters;
    StartSound();
    MainLocks();
    SecondRuns();
    SecondWaits();
    BothEnter();
    var h := map[MAIN := 1];
    ws := [World(Begin(), 0, Null, map[], {}), World(s1, 0, Null, map[], {}), World(s1, 1, MAIN, h, {}), World(s2, 1, MAIN, h, {}),
           World(s3, 1, MAIN, h, {}), World(s4, 1, MAIN, map[], {B}), World(s4, 1, MAIN, h, {B}), World(s5, 1, B, h[B := 1], {})];
    assert h[B := 1] == map[MAIN := 1, B := 1];
    forall i | 0 <= i < |calls| ensures Goes(ws[i], calls[i], ws[i + 1]) {
      assert i == 0 || i == 1 || i == 2 || i == 3 || i == 4 || i == 5 || i == 6;
    }
  }
}
