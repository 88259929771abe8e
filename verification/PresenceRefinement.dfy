/**
 The running objects follow the machine event by event: whatever calls are made, in whatever order, what they show is a
 reachable state, so every theorem about runs is about them.
 */
module PresenceRefinement {
  import opened Common
  import opened DueHeap
  import opened PresenceModel
  import opened PresenceSteps
  import opened PresenceTheorems
  import opened PresenceNode

  /** What the critical sections rely on holds in every reachable state. */
  lemma LinksHold(s: State, tokens: nat -> nat)
    requires Reachable(s, tokens)
    ensures Links(s) && s.pool.slots <= WORKERS
  {
    ReachableGood(s, tokens);
    forall j | j in s.pool.running ensures j.sub in s.reg.subs { RunningHasSlot(s, j); }
  }

  /** A node's subscriptions and its dispatcher goroutine, whose place in its loop and whose timer are in loop. */
  class Scheduler {
    const node: OnlineSubscriptions
    var loop: Loop
    ghost var s: State

    /** The objects show s, and some run of the machine is in s. */
    ghost predicate Follows()
      reads this, node, node.due
    {
      node.Queued() && node.Shows(s) && loop == s.loop && Reachable(s, node.tokens)
    }

    constructor (tokens: nat -> nat)
      ensures Follows() && fresh(node) && fresh(node.due) && node.tokens == tokens && s == Init(tokens)
    {
      node := new OnlineSubscriptions(tokens);
      loop, s := Dispatching, Init(tokens);
      InitReachable(tokens);
    }

    // ---------------------------------------------------------------- connections

    method SetSubscriptions(configured: bool, c: Conn, spare: Id, revision: int, userIds: seq<string>, now: nat)
      returns (r: Reply)
      requires Follows() && spare !in node.subs && s.clock <= now
      modifies this`s, node, node.due
      ensures Follows()
      ensures configured && WellFormed(revision, userIds) ==>
                (s, r) == Subscribe(old(s), c, spare, revision, set i | 0 <= i < |userIds| :: userIds[i], now)
      ensures configured && !WellFormed(revision, userIds) ==> s == old(s) && r == InvalidParam
      ensures !configured ==> s == old(s) && r == InvalidProtocol
    {
      LinksHold(s, node.tokens);
      r := node.SetSubscriptions(configured, c, spare, revision, userIds, now, s);
      if configured && WellFormed(revision, userIds) {
        ghost var ids := set i | 0 <= i < |userIds| :: userIds[i];
        ReachableStep(s, Event.SetSubscriptions(c, spare, revision, ids, now), node.tokens);
        s := Subscribe(s, c, spare, revision, ids, now).0;
      }
    }

    method EndContext(c: Conn)
      requires Follows()
      modifies this`s, node`dead
      ensures Follows() && s == Next(old(s), Event.EndContext(c), node.tokens)
    {
      ReachableStep(s, Event.EndContext(c), node.tokens);
      node.dead := node.dead + {c};
      s := Next(s, Event.EndContext(c), node.tokens);
    }

    method RemoveSubscriptions(c: Conn)
      requires Follows() && c in node.dead
      modifies this`s, node, node.due
      ensures Follows() && s == Next(old(s), Event.RemoveSubscriptions(c), node.tokens)
    {
      LinksHold(s, node.tokens);
      ReachableStep(s, Event.RemoveSubscriptions(c), node.tokens);
      node.RemoveSubscriptions(c, s);
      s := Next(s, Event.RemoveSubscriptions(c), node.tokens);
    }

    method UsersChanged(userIds: seq<string>, now: nat)
      requires Follows() && s.clock <= now
      modifies this`s, node, node.due
      ensures Follows() && (Over(old(s)) ==> s == old(s))
      ensures !Over(old(s)) ==>
                exists cs :: WalkOrder(old(s).reg.byUser, userIds, cs) && s == MarkChanged(old(s), cs, now)
    {
      LinksHold(s, node.tokens);
      ghost var cs := node.UsersChanged(userIds, now, s);
      if !Over(s) {
        ReachableStep(s, Event.UsersChanged(userIds, cs, now), node.tokens);
        s := MarkChanged(s, cs, now);
      }
    }

    method CloseNode()
      requires Follows()
      modifies this`s, node`closing
      ensures Follows() && s == Next(old(s), Event.CloseNode, node.tokens)
    {
      ReachableStep(s, Event.CloseNode, node.tokens);
      node.closing := true;
      s := Next(s, Event.CloseNode, node.tokens);
    }

    // ---------------------------------------------------------------- the dispatcher goroutine

    /** dispatchOnline under the lock. */
    method Pass(now: nat)
      requires Follows() && s.clock <= now && loop.Dispatching?
      modifies this, node, node.due
      ensures Follows() && s == Next(old(s), Event.Pass(now), node.tokens)
    {
      LinksHold(s, node.tokens);
      ReachableStep(s, Event.Pass(now), node.tokens);
      var wait := node.DispatchOnline(now, s);
      loop := Arming(wait, now);
      s := Next(s, Event.Pass(now), node.tokens);
    }

    /** The timer is stopped and, for a positive wait, set; then the goroutine selects. */
    method Arm(now: nat)
      requires Follows() && s.clock <= now && loop.Arming?
      modifies this
      ensures Follows() && s == Next(old(s), Event.Arm(now), node.tokens)
    {
      ReachableStep(s, Event.Arm(now), node.tokens);
      loop := Parked(if loop.wait > 0 then Some(now + loop.wait) else None,
                     if now >= loop.at then now - loop.at else 0);
      s := Next(s, Event.Arm(now), node.tokens);
    }

    /** The select takes the token out of the wake channel. */
    method WakeUp()
      requires Follows() && loop.Parked? && node.wake
      modifies this, node`wake
      ensures Follows() && !node.wake && s == Next(old(s), Event.WakeUp, node.tokens)
    {
      ReachableStep(s, Event.WakeUp, node.tokens);
      node.wake := false;
      loop := Dispatching;
      s := Next(s, Event.WakeUp, node.tokens);
    }

    method TimerFires(now: nat)
      requires Follows() && s.clock <= now && loop.Parked? && loop.deadline.Some? && loop.deadline.value <= now
      modifies this
      ensures Follows() && s == Next(old(s), Event.TimerFires(now), node.tokens)
    {
      ReachableStep(s, Event.TimerFires(now), node.tokens);
      loop := Dispatching;
      s := Next(s, Event.TimerFires(now), node.tokens);
    }

    /** ctx.Done was selected; cs is the order in which the deferred cleanup walked active. */
    method ExitDispatcher() returns (ghost cs: seq<Conn>)
      requires Follows() && loop.Parked?
      modifies this, node, node.due
      ensures Follows() && Allowed(old(s), Event.Exit(cs)) && s == Next(old(s), Event.Exit(cs), node.tokens)
    {
      LinksHold(s, node.tokens);
      cs := node.ExitDispatcher(s);
      ReachableStep(s, Event.Exit(cs), node.tokens);
      loop := Exited;
      s := Next(s, Event.Exit(cs), node.tokens);
    }

    // ---------------------------------------------------------------- the workers

    method TakeJob() returns (job: Job)
      requires Follows() && node.jobs != []
      modifies this`s, node`jobs, node`running
      ensures Follows() && s == Next(old(s), Event.TakeJob, node.tokens) && job in node.running
    {
      ReachableStep(s, Event.TakeJob, node.tokens);
      job := node.TakeJob(s);
      s := Next(s, Event.TakeJob, node.tokens);
    }

    method FinishRead(job: Job, ok: bool, fate: Fate, now: nat) returns (offer: Option<Offer>)
      requires Follows() && s.clock <= now && job in node.running
      modifies this`s, node, node.due
      ensures Follows() && s == Next(old(s), Event.FinishRead(job, ok, fate, now), node.tokens)
      ensures s.hist.offers == if offer.Some? then old(s).hist.offers + [offer.value] else old(s).hist.offers
    {
      LinksHold(s, node.tokens);
      assert job in s.pool.running;
      ReachableStep(s, Event.FinishRead(job, ok, fate, now), node.tokens);
      offer := node.FinishOnlineRead(job, ok, fate, now, s);
      s := Next(s, Event.FinishRead(job, ok, fate, now), node.tokens);
    }
  }
}
