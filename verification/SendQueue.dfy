/** The objects behind ByteBudget: the node's budget and one connection's send queue, as their methods change them. */
module SendQueue {
  import opened Common
  import opened ByteBudget
  import Presence = PresenceModel

  type Frame = seq<bv8>

  function Lengths(frames: seq<Frame>): seq<nat> { seq(|frames|, i requires 0 <= i < |frames| => |frames[i]|) }

  class SendBudget {
    const limit: int
    var queued: int
    var slowConsumers: nat
    var dropped: nat

    constructor (limit: int)
      ensures this.limit == limit && queued == 0 && slowConsumers == 0 && dropped == 0
    {
      this.limit, queued, slowConsumers, dropped := limit, 0, 0, 0;
    }

    method Charge(n: nat)
      modifies this`queued
      ensures queued == old(queued) + n
    {
      queued := queued + n;
    }

    /** tryTake: charged only while the node stays within its cap; a refusal leaves the counter as it was. */
    method TryTake(n: nat) returns (ok: bool)
      modifies this`queued, this`dropped
      ensures ok <==> limit <= 0 || old(queued) + n <= limit
      ensures queued == (if ok then old(queued) + n else old(queued))
      ensures dropped == (if ok then old(dropped) else old(dropped) + 1)
    {
      queued := queued + n;
      if limit > 0 && queued > limit {
        queued := queued - n;
        dropped := dropped + 1;
        return false;
      }
      ok := true;
    }

    method Release(n: int)
      modifies this`queued
      ensures queued == old(queued) - n
    {
      queued := queued - n;
    }
  }

  class Connection {
    const budget: SendBudget
    const capacity: nat
    var send: seq<Frame>
    /** The frame the writer received and has not accounted for yet. */
    var held: Option<Frame>
    var queued: int
    var closing: bool

    ghost function View(): Queue
      reads this
    {
      Queue(Lengths(send), if held.Some? then Some(|held.value|) else None, queued, closing)
    }

    /** What the node counter holds for everyone else. */
    ghost function Others(): int
      reads this, budget
    {
      budget.queued - queued
    }

    constructor (budget: SendBudget, capacity: nat)
      ensures this.budget == budget && this.capacity == capacity && View() == NewQueue()
    {
      this.budget, this.capacity, send, held, queued, closing := budget, capacity, [], None, 0, false;
    }

    /** queueFrame takes over a charge of |frame| bytes: it is queued, or given back. */
    method QueueFrame(frame: Frame) returns (full: bool, ok: bool)
      modifies this, budget
      ensures ok <==> !old(closing) && |old(send)| < capacity
      ensures full <==> !ok && !old(closing)
      ensures View() == if ok then Appended(old(View()), |frame|) else old(View())
      ensures Others() == old(Others()) - |frame|
      ensures send == (if ok then old(send) + [frame] else old(send))
    {
      if closing {
        budget.Release(|frame|);
        return false, false;
      }
      if |send| < capacity {
        send := send + [frame];
        queued := queued + |frame|;
        assert Lengths(send) == Lengths(old(send)) + [|frame|];
        return false, true;
      }
      budget.Release(|frame|);
      budget.slowConsumers := budget.slowConsumers + 1;
      return true, false;
    }

    /** Send: never subject to the cap; a full queue closes the connection. */
    method Send(frame: Frame) returns (ok: bool)
      modifies this, budget
      ensures Others() == old(Others())
      ensures ok <==> Fits(old(View()), capacity)
      ensures View() == Offered(old(View()), capacity, |frame|)
    {
      budget.Charge(|frame|);
      var full;
      full, ok := QueueFrame(frame);
      if full { Close(); }
    }

    /** Push: over the cap the frame is dropped and replaced by a resync. */
    method Push(frame: Frame, resync: Frame) returns (ok: bool)
      modifies this, budget
      ensures Others() == old(Others())
      ensures ok <==> Fits(old(View()), capacity)
      ensures var n := if Affords(budget.limit, old(budget.queued), |frame|) then |frame| else |resync|;
              View() == Offered(old(View()), capacity, n)
    {
      var taken := budget.TryTake(|frame|);
      if !taken {
        ok := Send(resync);
        return;
      }
      var full;
      full, ok := QueueFrame(frame);
      if full { Close(); }
    }

    /** queueOnlineSnapshot: over the cap the frame is dropped; a full queue is left for the caller to close. */
    method QueueOnlineSnapshot(frame: Frame) returns (fate: Presence.Fate)
      modifies this, budget
      ensures Others() == old(Others())
      ensures fate.OverBudget? <==> !Affords(budget.limit, old(budget.queued), |frame|)
      ensures fate.Enqueued? <==> Affords(budget.limit, old(budget.queued), |frame|) && Fits(old(View()), capacity)
      ensures fate.ConnClosing? ==> old(closing)
      ensures fate.QueueFull? ==> !old(closing) && |old(send)| >= capacity
      ensures View() == if fate.Enqueued? then Appended(old(View()), |frame|) else old(View())
    {
      var taken := budget.TryTake(|frame|);
      if !taken { return Presence.OverBudget; }
      var full, ok := QueueFrame(frame);
      fate := if ok then Presence.Enqueued else if full then Presence.QueueFull else Presence.ConnClosing;
    }

    /** The writer receives the next frame. */
    method Receive() returns (frame: Frame)
      requires send != [] && held.None?
      modifies this
      ensures View() == old(View()).(frames := old(View()).frames[1..], held := Some(|frame|)) && frame == old(send)[0]
    {
      frame := send[0];
      send := send[1..];
      held := Some(frame);
      assert Lengths(send) == Lengths(old(send))[1..];
    }

    /** write's accounting. */
    method Settle()
      requires held.Some?
      modifies this, budget
      ensures View() == Settled(old(View())).0 && Others() == old(Others())
    {
      if !closing {
        queued := queued - |held.value|;
        budget.Release(|held.value|);
      }
      held := None;
    }

    /** The part of close that concerns the queue; a second call finds nothing left to release. */
    method Close()
      modifies this, budget
      ensures View() == Closed(old(View())) && Others() == old(Others())
    {
      closing := true;
      var leaked := queued;
      queued := 0;
      budget.Release(leaked);
    }
  }
}
