/**
 * `EventMap`, the per-controller queue of delayed events that the caribou
 * trap and Bloodmage Laurith drain in their `UpdateAI`. Its own source is not
 * part of this model; it is modelled by the contract its callers rely on:
 * a running clock, events held in deadline order (first scheduled first
 * among equal deadlines), and `ExecuteEvent` handing out the earliest ready
 * event, once, or 0 when none is ready.
 */
module EventMaps {

  /** An event id together with the clock reading at which it becomes ready. */
  datatype Scheduled = Scheduled(id: nat, due: nat)

  ghost predicate Sorted(q: seq<Scheduled>)
  {
    forall i, j :: 0 <= i < j < |q| ==> q[i].due <= q[j].due
  }

  /** How many of the leading entries of `q` are due no later than `due`. */
  function InsertPos(q: seq<Scheduled>, due: nat): (k: nat)
    ensures k <= |q|
    ensures forall i :: 0 <= i < k ==> q[i].due <= due
    ensures k < |q| ==> due < q[k].due
  {
    if q == [] || due < q[0].due then 0 else 1 + InsertPos(q[1..], due)
  }

  /**
   * Scheduling: `e` goes after the leading run of pending events due no
   * later than it (so first scheduled is first served among equal deadlines).
   */
  function Insert(q: seq<Scheduled>, e: Scheduled): (r: seq<Scheduled>)
    ensures |r| == |q| + 1
  {
    if q == [] then [e]
    else if e.due < q[0].due then [e] + q
    else
      assert q == [q[0]] + q[1..];
      [q[0]] + Insert(q[1..], e)
  }

  /** Scheduling adds exactly the new entry and loses none. */
  lemma {:induction false} InsertAddsEntry(q: seq<Scheduled>, e: Scheduled)
    ensures multiset(Insert(q, e)) == multiset(q) + multiset{e}
  {
    if q != [] && e.due >= q[0].due {
      InsertAddsEntry(q[1..], e);
      assert q == [q[0]] + q[1..];
    }
  }

  lemma {:induction false} InsertIsFifo(q: seq<Scheduled>, e: Scheduled)
    ensures Insert(q, e) == q[..InsertPos(q, e.due)] + [e] + q[InsertPos(q, e.due)..]
  {
    if q != [] && e.due >= q[0].due {
      InsertIsFifo(q[1..], e);
      var tail, k := q[1..], InsertPos(q[1..], e.due);
      assert q[..k + 1] == [q[0]] + tail[..k];
      assert q[k + 1..] == tail[k..];
      assert [q[0]] + (tail[..k] + [e] + tail[k..]) == ([q[0]] + tail[..k]) + [e] + tail[k..];
    } else {
      assert q[..0] == [] && q[0..] == q;
    }
  }

  /** Scheduling keeps the queue in deadline order. */
  lemma {:induction false} InsertKeepsSorted(q: seq<Scheduled>, e: Scheduled)
    requires Sorted(q)
    ensures Sorted(Insert(q, e))
    ensures Insert(q, e)[0] == e || (q != [] && Insert(q, e)[0] == q[0])
  {
    if q != [] && e.due >= q[0].due {
      InsertKeepsSorted(q[1..], e);
      var rest := Insert(q[1..], e);
      InsertAddsEntry(q[1..], e);
      assert Insert(q, e) == [q[0]] + rest;
      forall i | 0 <= i < |rest| ensures q[0].due <= rest[i].due {
        assert rest[i] in multiset(q[1..]) + multiset{e};
        assert rest[i] == e || rest[i] in q[1..];
      }
      ConsKeepsSorted(q[0], rest);
    }
  }

  lemma ConsKeepsSorted(x: Scheduled, q: seq<Scheduled>)
    requires Sorted(q) && forall i :: 0 <= i < |q| ==> x.due <= q[i].due
    ensures Sorted([x] + q)
  {
    var r := [x] + q;
    forall i, j | 0 <= i < j < |r| ensures r[i].due <= r[j].due {
      assert r[j] == q[j - 1];
      if i > 0 {
        assert r[i] == q[i - 1];
      }
    }
  }

  /** The number of pending events that are ready at clock reading `now`. */
  function ReadyCount(q: seq<Scheduled>, now: nat): (n: nat)
    ensures n <= |q|
  {
    if q == [] then 0 else (if q[0].due <= now then 1 else 0) + ReadyCount(q[1..], now)
  }

  /** An event scheduled for later than `now` does not add to what is ready now. */
  lemma {:induction false} InsertLaterKeepsReady(q: seq<Scheduled>, e: Scheduled, now: nat)
    requires now < e.due
    ensures ReadyCount(Insert(q, e), now) == ReadyCount(q, now)
  {
    if q != [] && e.due >= q[0].due {
      InsertLaterKeepsReady(q[1..], e, now);
      assert Insert(q, e)[1..] == Insert(q[1..], e);
    }
  }

  /** In a sorted queue something is ready exactly when its head is. */
  lemma {:induction false} ReadyIffHeadReady(q: seq<Scheduled>, now: nat)
    requires Sorted(q)
    ensures ReadyCount(q, now) > 0 <==> (q != [] && q[0].due <= now)
  {
    if q != [] && q[0].due > now {
      NothingReadyBeforeHead(q, now);
    }
  }

  lemma {:induction false} NothingReadyBeforeHead(q: seq<Scheduled>, now: nat)
    requires Sorted(q)
    requires forall i :: 0 <= i < |q| ==> now < q[i].due
    ensures ReadyCount(q, now) == 0
  {
    if q != [] {
      NothingReadyBeforeHead(q[1..], now);
    }
  }

  /** Advancing the clock never makes a ready event unready. */
  lemma {:induction false} ReadyMonotone(q: seq<Scheduled>, now: nat, later: nat)
    requires now <= later
    ensures ReadyCount(q, now) <= ReadyCount(q, later)
  {
    if q != [] {
      ReadyMonotone(q[1..], now, later);
    }
  }

  class EventMap {
    /** Milliseconds elapsed since construction or the last `Reset`. */
    var now: nat
    var pending: seq<Scheduled>

    ghost predicate Valid()
      reads this
    {
      Sorted(pending) && forall i :: 0 <= i < |pending| ==> pending[i].id > 0
    }

    constructor ()
      ensures Valid() && now == 0 && pending == []
    {
      now := 0;
      pending := [];
    }

    /** Drops every pending event and restarts the clock. */
    method Reset()
      modifies this
      ensures Valid() && now == 0 && pending == []
    {
      now := 0;
      pending := [];
    }

    /** Id 0 is reserved: `ExecuteEvent` answers 0 for "nothing ready". */
    method ScheduleEvent(id: nat, delay: nat)
      requires Valid() && id > 0
      modifies this
      ensures Valid() && now == old(now)
      ensures pending == Insert(old(pending), Scheduled(id, old(now) + delay))
    {
      var e := Scheduled(id, now + delay);
      InsertKeepsSorted(pending, e);
      InsertAddsEntry(pending, e);
      forall i | 0 <= i < |Insert(pending, e)| ensures Insert(pending, e)[i].id > 0 {
        assert Insert(pending, e)[i] in multiset(pending) + multiset{e};
      }
      pending := Insert(pending, e);
    }

    method Update(diff: nat)
      modifies this
      ensures now == old(now) + diff && pending == old(pending)
    {
      now := now + diff;
    }

    /** Removes and returns the earliest ready event, or returns 0 when none is ready. */
    method ExecuteEvent() returns (id: nat)
      requires Valid()
      modifies this
      ensures Valid() && now == old(now)
      ensures old(pending) != [] && old(pending)[0].due <= now ==>
                id == old(pending)[0].id && id > 0 && pending == old(pending)[1..]
      ensures !(old(pending) != [] && old(pending)[0].due <= now) ==>
                id == 0 && pending == old(pending)
      ensures ReadyCount(pending, now) == ReadyCount(old(pending), now) - (if id == 0 then 0 else 1)
    {
      if pending != [] && pending[0].due <= now {
        id := pending[0].id;
        pending := pending[1..];
      } else {
        id := 0;
        ReadyIffHeadReady(pending, now);
      }
    }
  }
}
