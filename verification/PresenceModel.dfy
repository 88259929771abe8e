/**
 The presence refresh scheduler of internal/gateway/presence.go as values: one function per critical section.
 Times are nanoseconds since Go's zero time. The queue is a map from subscription to rank, which DueHeap
 implements; a sorted, compacted id list is the set of its ids; the frame limiter is the time of its next token.
 */
module PresenceModel {
  import opened Common
  import opened DueHeap

  const MAX_SUBSCRIPTIONS: nat := 100
  const MAX_REFS: nat := 100_000
  const SECOND: nat := 1_000_000_000
  const SNAPSHOT_INTERVAL: nat := 30 * SECOND
  const STALE_AFTER: nat := 3 * SNAPSHOT_INTERVAL
  const MIN_INTERVAL: nat := SECOND
  const WORKERS: nat := 4

  type Conn = nat

  /** reading is "cancel is non-nil": this connection's one read is in flight. */
  datatype Sub = Sub(
    client: Conn, revision: int, users: set<string>, reading: bool, remark: bool, nextAttempt: nat, lastSuccess: nat)

  /** The subscriptions of a node: every object ever made, who owns and who watches what, and the refresh queue. */
  datatype Reg = Reg(
    subs: map<Id, Sub>, onlineSub: map<Conn, Id>, active: map<Conn, Id>, byUser: map<string, set<Conn>>, refs: int,
    due: map<Id, Rank>, order: nat, wake: bool)

  datatype Job = Job(sub: Id, revision: int, users: set<string>)

  /** Refresh slots in use, the job channel, the jobs workers hold, and the frame limiter. */
  datatype Pool = Pool(slots: nat, jobs: seq<Job>, running: set<Job>, tokenAt: nat, granted: nat)

  /**
   What queueOnlineSnapshot came to: tryTake refused, or queueFrame took the frame, was full or found the connection
   closing.
   */
  datatype Fate = Enqueued | OverBudget | QueueFull | ConnClosing

  /** A snapshot frame offered to a connection's queue, the users it was read for, and whether the queue took it. */
  datatype Offer = Offer(client: Conn, revision: int, users: set<string>, stale: bool, fate: Fate)

  /** What happened so far; nothing reads it. */
  datatype Hist = Hist(admitted: seq<(Conn, nat)>, offers: seq<Offer>, accepted: map<(Conn, int), set<string>>)

  /** The dispatcher goroutine: about to dispatch, between its dispatch at time `at` and its select, in its select. */
  datatype Loop = Dispatching | Arming(wait: nat, at: nat) | Parked(deadline: Option<nat>, lag: nat) | Exited

  /** dead holds the connections whose activeCtx has ended. */
  datatype State = State(
    reg: Reg, pool: Pool, dead: set<Conn>, stopped: bool, closing: bool, clock: nat, loop: Loop, hist: Hist)

  predicate Over(s: State) { s.closing || s.stopped }

  function Max(a: nat, b: nat): nat { if a >= b then a else b }

  predicate IsHead(due: map<Id, Rank>, x: Id) {
    x in due && forall y :: y in due ==> !Before(due[y], due[x])
  }

  // ---------------------------------------------------------------- bookkeeping

  /** The reverse index after c stops watching users; an entry that becomes empty goes. */
  function Unwatch(byUser: map<string, set<Conn>>, users: set<string>, c: Conn): map<string, set<Conn>> {
    map u | u in byUser && !(u in users && byUser[u] - {c} == {}) ::
      if u in users then byUser[u] - {c} else byUser[u]
  }

  function Watchers(byUser: map<string, set<Conn>>, u: string): set<Conn> {
    if u in byUser then byUser[u] else {}
  }

  function Watch(byUser: map<string, set<Conn>>, users: set<string>, c: Conn): map<string, set<Conn>> {
    map u | u in byUser.Keys + users :: if u in users then Watchers(byUser, u) + {c} else byUser[u]
  }

  function SetSub(p: Reg, x: Id, sub: Sub): Reg { p.(subs := p.subs[x := sub]) }

  /** remove: gives back references and the pending marker, keeps the revision and the read in flight. */
  function Drop(p: Reg, x: Id): Reg
    requires x in p.subs
  {
    var sub := p.subs[x];
    var p := SetSub(p.(due := p.due - {x}), x, sub.(remark := false));
    if sub.client !in p.active then p
    else p.(active := p.active - {sub.client}, refs := p.refs - |sub.users|,
      byUser := Unwatch(p.byUser, sub.users, sub.client))
  }

  /** requeue: the only writer of readyAt; clamps to the minimum interval and never moves a queued entry later. */
  function Requeue(p: Reg, x: Id, at: nat): Reg
    requires x in p.subs
  {
    var at := Max(at, p.subs[x].nextAttempt);
    if x in p.due && at >= p.due[x].readyAt then p
    else
      var p' := if x in p.due then p.(due := p.due[x := Rank(at, p.due[x].order)])
                else p.(due := p.due[x := Rank(at, p.order)], order := p.order + 1);
      if IsHead(p'.due, x) then p'.(wake := true) else p'
  }

  /** mark: a connection that is reading keeps the marker for its completion. */
  function Mark(p: Reg, x: Id, now: nat): Reg
    requires x in p.subs
  {
    if p.subs[x].reading then SetSub(p, x, p.subs[x].(remark := true)) else Requeue(p, x, now)
  }

  // ---------------------------------------------------------------- subscribe and unsubscribe

  datatype Reply = Ack(revision: int) | InvalidProtocol | InvalidParam | NodeDraining | ConnClosed | TooManyRequests

  function NewSub(c: Conn): Sub { Sub(c, 0, {}, false, false, 0, 0) }

  function SubIdOf(p: Reg, c: Conn, spare: Id): Id { if c in p.onlineSub then p.onlineSub[c] else spare }

  function SubOf(p: Reg, c: Conn, spare: Id): Sub {
    if SubIdOf(p, c, spare) in p.subs then p.subs[SubIdOf(p, c, spare)] else NewSub(c)
  }

  /** setOnlineSubscriptions up to the point where it starts to change state; None lets it go on. */
  function Refused(s: State, c: Conn, spare: Id, revision: int, users: set<string>): Option<Reply> {
    var sub := SubOf(s.reg, c, spare);
    if Over(s) then Some(NodeDraining)
    else if c in s.dead then Some(ConnClosed)
    else if revision < sub.revision then Some(InvalidParam)
    else if revision == sub.revision then Some(if users != sub.users then InvalidParam else Ack(revision))
    else if s.reg.refs - |sub.users| + |users| > MAX_REFS then Some(TooManyRequests)
    else None
  }

  /** The new revision recorded on the (old or new) subscription, its references not yet counted. */
  function Revised(p: Reg, c: Conn, spare: Id, revision: int, users: set<string>): Reg {
    var x := SubIdOf(p, c, spare);
    var p := Drop(SetSub(p, x, SubOf(p, c, spare)), x);
    SetSub(p, x, p.subs[x].(revision := revision, users := users, lastSuccess := 0)).(onlineSub := p.onlineSub[c := x])
  }

  function Activate(p: Reg, x: Id): Reg
    requires x in p.subs
  {
    var sub := p.subs[x];
    p.(active := p.active[sub.client := x], refs := p.refs + |sub.users|,
      byUser := Watch(p.byUser, sub.users, sub.client))
  }

  /** The new set in place, its refresh not yet marked; an empty set leaves the connection inactive. */
  function Settled(p: Reg, c: Conn, spare: Id, revision: int, users: set<string>): Reg {
    var p' := Revised(p, c, spare, revision, users);
    if users == {} then p' else Activate(p', SubIdOf(p, c, spare))
  }

  /** setOnlineSubscriptions past its parameter checks; spare is the identity a new subscription object would get. */
  function Subscribe(s: State, c: Conn, spare: Id, revision: int, users: set<string>, now: nat): (State, Reply) {
    var refused := Refused(s, c, spare, revision, users);
    if refused.Some? then (s.(clock := now), refused.value)
    else
      var x := SubIdOf(s.reg, c, spare);
      var p := Settled(s.reg, c, spare, revision, users);
      (s.(clock := now, reg := if users == {} then p else Mark(p, x, now),
          hist := s.hist.(accepted := s.hist.accepted[(c, revision) := users])), Ack(revision))
  }

  /** removeOnlineSubscriptions. */
  function Unsubscribe(p: Reg, c: Conn): Reg {
    if c !in p.onlineSub || p.onlineSub[c] !in p.subs then p
    else Drop(p, p.onlineSub[c]).(onlineSub := p.onlineSub - {c})
  }

  /** The inner loops of markOnlineChanged, in the order the maps were walked. */
  function MarkAll(p: Reg, cs: seq<Conn>, now: nat): Reg {
    if cs == [] then p
    else
      var p := MarkAll(p, cs[..|cs|-1], now);
      var c := cs[|cs|-1];
      if c in p.active && p.active[c] in p.subs then Mark(p, p.active[c], now) else p
  }

  /** cs lists all, each once. */
  ghost predicate IsEnumeration(cs: seq<Conn>, all: set<Conn>) {
    && (forall c :: c in cs <==> c in all)
    && (forall i, j :: 0 <= i < j < |cs| ==> cs[i] != cs[j])
  }

  /** Each changed user's watchers, user by user and each watcher once. */
  ghost predicate WalkOrder(byUser: map<string, set<Conn>>, users: seq<string>, cs: seq<Conn>) {
    if users == [] then cs == []
    else exists k :: 0 <= k <= |cs| && IsEnumeration(cs[k..], Watchers(byUser, users[|users|-1]))
                     && WalkOrder(byUser, users[..|users|-1], cs[..k])
  }

  /** markOnlineChanged. */
  function MarkChanged(s: State, cs: seq<Conn>, now: nat): State {
    s.(clock := now, reg := if Over(s) then s.reg else MarkAll(s.reg, cs, now))
  }

  // ---------------------------------------------------------------- dispatch and completion

  /** One admission: hand the job to the pool, take the slot and the token. */
  function Admit(s: State, x: Id, now: nat, tokens: nat -> nat): State
    requires x in s.reg.subs
  {
    var sub := s.reg.subs[x];
    var sub' := sub.(reading := true, remark := false, nextAttempt := now + MIN_INTERVAL);
    s.(reg := SetSub(s.reg, x, sub').(due := s.reg.due - {x}),
       pool := s.pool.(jobs := s.pool.jobs + [Job(x, sub.revision, sub.users)], slots := s.pool.slots + 1,
                       granted := s.pool.granted + 1, tokenAt := tokens(s.pool.granted + 1)),
       hist := s.hist.(admitted := s.hist.admitted + [(sub.client, now)]))
  }

  ghost function HeadOf(due: map<Id, Rank>): Id
    requires exists x :: IsHead(due, x)
  {
    var x :| IsHead(due, x); x
  }

  /** Why dispatchOnline stops at this queue: Some(wait), or None to admit the head. */
  ghost function Blocked(s: State, now: nat): Option<nat> {
    if Over(s) || !(exists x :: IsHead(s.reg.due, x)) then Some(0)
    else
      var r := s.reg.due[HeadOf(s.reg.due)].readyAt;
      if r > now then Some(r - now)
      else if s.pool.slots == WORKERS then Some(0)
      else if s.pool.tokenAt > now then Some(s.pool.tokenAt - now)
      else None
  }

  /** dispatchOnline. */
  ghost function Dispatch(s: State, now: nat, tokens: nat -> nat): (State, nat)
    decreases |s.reg.due|
  {
    var b := Blocked(s, now);
    if b.Some? then (s, b.value)
    else
      var x := HeadOf(s.reg.due);
      if x !in s.reg.subs then (s, 0)
      else
        assert |s.reg.due - {x}| < |s.reg.due| by { assert (s.reg.due - {x}).Keys == s.reg.due.Keys - {x}; }
        Dispatch(Admit(s, x, now, tokens), now, tokens)
  }

  /** The subscription the finished read belongs to is still the connection's own and wants refreshes. */
  predicate StillWanted(s: State, x: Id)
    requires x in s.reg.subs
  {
    var sub := s.reg.subs[x];
    && !Over(s) && sub.client !in s.dead
    && sub.client in s.reg.onlineSub && s.reg.onlineSub[sub.client] == x && sub.users != {}
  }

  /** finishOnlineRead before its requeue: the read is over, its slot is free and the dispatcher is woken. */
  function Completed(s: State, job: Job): State
    requires job.sub in s.reg.subs && s.pool.slots > 0
  {
    s.(reg := SetSub(s.reg, job.sub, s.reg.subs[job.sub].(reading := false)).(wake := true),
       pool := s.pool.(running := s.pool.running - {job}, slots := s.pool.slots - 1))
  }

  /** The requeue every path that keeps the subscription makes. */
  function Rescheduled(p: Reg, x: Id, now: nat): Reg
    requires x in p.subs
  {
    var sub := p.subs[x];
    Requeue(SetSub(p, x, sub.(remark := false)), x, if sub.remark then now else now + SNAPSHOT_INTERVAL)
  }

  /** A read of the current revision offers a frame; a failure stays silent until the last success is stale. */
  predicate Sends(sub: Sub, job: Job, ok: bool, now: nat) {
    sub.revision == job.revision && (ok || (sub.lastSuccess != 0 && sub.lastSuccess + STALE_AFTER <= now))
  }

  /** lastSuccess is set whatever becomes of the frame; a connection is closing only after its context ended. */
  function Delivered(s: State, job: Job, ok: bool, fate: Fate, now: nat): State
    requires job.sub in s.reg.subs
  {
    var sub := s.reg.subs[job.sub];
    if !Sends(sub, job, ok, now) then s
    else
      s.(reg := if ok then SetSub(s.reg, job.sub, sub.(lastSuccess := now)) else s.reg,
         dead := if fate.ConnClosing? then s.dead + {sub.client} else s.dead,
         hist := s.hist.(offers := s.hist.offers + [Offer(sub.client, sub.revision, job.users, !ok, fate)]))
  }

  /** What finishOnlineRead does after the read is accounted for. */
  function Concluded(s: State, job: Job, ok: bool, fate: Fate, now: nat): State
    requires job.sub in s.reg.subs
  {
    if !StillWanted(s, job.sub) then s else Delivered(s.(reg := Rescheduled(s.reg, job.sub, now)), job, ok, fate, now)
  }

  /** finishOnlineRead. */
  function Finish(s: State, job: Job, ok: bool, fate: Fate, now: nat): State
    requires job.sub in s.reg.subs && s.pool.slots > 0
  {
    Concluded(Completed(s.(clock := now), job), job, ok, fate, now)
  }

  /** The dispatcher's deferred cleanup, in the order active was walked. */
  function DropAll(p: Reg, cs: seq<Conn>): Reg {
    if cs == [] then p
    else
      var p := DropAll(p, cs[..|cs|-1]);
      var c := cs[|cs|-1];
      if c in p.active && p.active[c] in p.subs then Drop(p, p.active[c]).(onlineSub := p.onlineSub - {c}) else p
  }
}
