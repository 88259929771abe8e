/** client.ts as it runs: the fields of ImClient that sync and pushes share, changed in place between awaits. */
module WebImClient {
  import opened Common
  import opened ChatModel
  import opened WebSync
  import opened WebClient

  class ImClient {
    var cursors: map<string, int>
    /** The bounds of snapshot.conversations. */
    var tracked: map<string, Range>
    var dirty: bool
    /** What the pending continuation of the refresh holds; Idle while refreshPromise is undefined. */
    var phase: Phase

    ghost function View(): Client
      reads this
    {
      Client(cursors, tracked, dirty, phase)
    }

    /** A new client takes the cursors found in local storage. */
    constructor (stored: map<string, int>)
      ensures View() == Client(map id | id in stored && stored[id] >= 0 :: stored[id], map[], false, Idle)
    {
      cursors, tracked, dirty, phase := map id | id in stored && stored[id] >= 0 :: stored[id], map[], false, Idle;
    }

    /** applyPush; false asks the caller for a full sync. */
    method ApplyPush(id: string, n: int) returns (known: bool)
      modifies this
      ensures View() == WebClient.ApplyPush(old(View()), id, n)
      ensures known <==>
              && id in old(tracked)
              && (n <= Cursor(old(View()), id) || (n == Cursor(old(View()), id) + 1 && old(tracked)[id].minSeq <= n))
      ensures known && n == Cursor(old(View()), id) + 1 ==>
              && cursors == old(cursors)[id := n] && dirty == (old(dirty) || phase != Idle)
              && tracked == old(tracked)[id := tracked[id]] && tracked[id].minSeq == old(tracked)[id].minSeq
              && tracked[id].maxSeq == Max(old(tracked)[id].maxSeq, n)
      ensures !known || n <= Cursor(old(View()), id) ==> View() == old(View())
    {
      if id !in tracked { return false; }
      var local := if id in cursors then cursors[id] else 0;
      if n <= local { return true; }
      if n != local + 1 || n < tracked[id].minSeq { return false; }
      cursors := cursors[id := n];
      if phase != Idle { dirty := true; }
      tracked := tracked[id := tracked[id].(maxSeq := Max(tracked[id].maxSeq, n))];
      known := true;
    }

    /** refresh up to its first request. */
    method Refresh()
      modifies this
      ensures View() == BeginRefresh(old(View()))
    {
      if phase != Idle {
        dirty := true;
      } else {
        dirty := false;
        phase := Listing;
      }
    }

    /** syncOnce once both lists are complete: every listed conversation takes its fresh bounds. */
    method AdoptLists(list: map<string, Range>, bounds: map<string, Range>)
      requires phase.Listing?
      modifies this
      ensures View() == WebClient.AdoptLists(old(View()), list, bounds)
    {
      var visible: map<string, Range> := map[];
      var rest := list.Keys;
      while rest != {}
        invariant rest <= list.Keys
        invariant visible == map id | id in list && id !in rest :: if id in bounds then bounds[id] else list[id]
      {
        var id :| id in rest;
        rest := rest - {id};
        visible := visible[id := if id in bounds then bounds[id] else list[id]];
      }
      tracked := visible;
      phase := Ranging(bounds, bounds.Keys, None);
    }

    /** syncRange up to its first request. */
    method StartRange(id: string)
      requires phase.Ranging? && phase.pulling.None? && id in phase.todo && id in phase.bounds
      modifies this
      ensures View() == BeginRange(old(View()), id)
      ensures var b := Bounds(id, phase.bounds[id].minSeq, phase.bounds[id].maxSeq);
              id in cursors && BeginsAt(b, Cursor(old(View()), id), cursors[id])
              && (phase.pulling == if cursors[id] < b.maxSeq then Some(Pulling(id, cursors[id])) else None)
      ensures Cursor(old(View()), id) <= phase.bounds[id].maxSeq ==> Cursor(old(View()), id) <= cursors[id]
    {
      var r := phase.bounds[id];
      var cursor := if id in cursors then cursors[id] else 0;
      var local := Min(Max(cursor, r.minSeq - 1), r.maxSeq);
      cursors := cursors[id := local];
      phase := Ranging(phase.bounds, phase.todo - {id}, if local < r.maxSeq then Some(Pulling(id, local)) else None);
    }

    /** A page of syncRange: committed when it continues the range, otherwise the refresh fails. */
    method ReceivePage(page: seq<Message>) returns (ok: bool)
      requires phase.Ranging? && phase.pulling.Some? && phase.pulling.value.id in phase.bounds
      modifies this
      ensures ok <==> Accepts(old(View()), page)
      ensures View() == CommitPage(old(View()), page)
    {
      var p := phase.pulling.value;
      var r := phase.bounds[p.id];
      var next := CheckPage(page, Bounds(p.id, r.minSeq, r.maxSeq), p.local);
      if page == [] || next.None? {
        phase := Idle;
        return false;
      }
      cursors := cursors[p.id := next.value];
      phase := phase.(pulling := if next.value < r.maxSeq then Some(Pulling(p.id, next.value)) else None);
      ok := true;
    }

    /** The condition of refresh's loop. */
    method EndRound() returns (again: bool)
      requires phase.Finishing?
      modifies this
      ensures View() == WebClient.EndRound(old(View())) && again == old(dirty)
    {
      again := dirty;
      if dirty {
        dirty := false;
        phase := Listing;
      } else {
        phase := Idle;
      }
    }
  }
}
