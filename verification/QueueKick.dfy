/** Starting the queue of one app: what kickAppBuilderQueue and fail, which
    call each other, leave behind, said without the recursion. */
module QueueKick {
  import opened Common
  import opened Queue
  import opened QueueRuns

  /** The answer of a service outside: a value, or an error that does or does
      not read as "checks still pending". */
  datatype Answer<T> = Got(value: T) | Lost(transient: bool)

  type Starts = RequestId -> Answer<string>

  /** The brief can be sent to the model, and the response id is a new one. */
  predicate Startable(t: Table, id: RequestId, starts: Starts) {
    starts(id).Got? && !ResponseUsed(t, id, starts(id).value)
  }

  predicate EarlierStarts(t: Table, asset: AssetId, starts: Starts, id: RequestId)
    requires id in t
  {
    exists b :: b in t && IsQueued(t, b, asset) && Before(t, b, id) && Startable(t, b, starts)
  }

  /** First come, first served: the first startable request of an idle app is
      started, the ones before it fail, the ones after it keep waiting. */
  function KickedRow(t: Table, asset: AssetId, starts: Starts, id: RequestId): Request
    requires id in t
  {
    if HasActive(t, asset) || !IsQueued(t, id, asset) || EarlierStarts(t, asset, starts, id) then t[id]
    else if Startable(t, id, starts) then
      t[id].(status := WaitingOpenai, responseId := Some(starts(id).value), turn := 1)
    else t[id].(status := Failed)
  }

  function Kicked(t: Table, asset: AssetId, starts: Starts): Table {
    map id | id in t :: KickedRow(t, asset, starts, id)
  }

  function QueuedIds(t: Table, asset: AssetId): set<RequestId> {
    set id | id in t && IsQueued(t, id, asset)
  }

  /** The app is working on a request or has none waiting. */
  ghost predicate Served(t: Table, asset: AssetId) {
    HasActive(t, asset) || QueuedIds(t, asset) == {}
  }

  lemma {:induction false} FirstOf(t: Table, ids: set<RequestId>) returns (h: RequestId)
    requires ids <= t.Keys && ids != {}
    ensures h in ids && forall b :: b in ids ==> !Before(t, b, h)
    decreases |ids|
  {
    h :| h in ids;
    if ids != {h} {
      var least := FirstOf(t, ids - {h});
      var other := h;
      if Before(t, least, h) { h := least; }
      forall b | b in ids ensures !Before(t, b, h) {
        if b != other { assert !Before(t, b, least); }
      }
    }
  }

  lemma HeadExists(t: Table, asset: AssetId)
    requires QueuedIds(t, asset) != {}
    ensures exists h :: h in t && IsHead(t, h, asset)
  {
    var h := FirstOf(t, QueuedIds(t, asset));
    assert forall b :: b in t && IsQueued(t, b, asset) ==> b in QueuedIds(t, asset);
    assert IsHead(t, h, asset);
  }

  lemma KickIdle(t: Table, asset: AssetId, starts: Starts)
    requires Served(t, asset)
    ensures Kicked(t, asset, starts) == t
  {
    forall id | id in t ensures KickedRow(t, asset, starts, id) == t[id] {
      if !HasActive(t, asset) { assert id !in QueuedIds(t, asset); }
    }
  }

  lemma SameResponses(t: Table, next: Table, id: RequestId, response: string)
    requires t.Keys == next.Keys && forall a :: a in t && a != id ==> next[a].responseId == t[a].responseId
    ensures ResponseUsed(t, id, response) <==> ResponseUsed(next, id, response)
  {
    if ResponseUsed(t, id, response) {
      var o :| o in t && o != id && t[o].responseId == Some(response);
      assert o in next && next[o].responseId == Some(response);
    }
    if ResponseUsed(next, id, response) {
      var o :| o in next && o != id && next[o].responseId == Some(response);
      assert o in t && t[o].responseId == Some(response);
    }
  }

  lemma KickStarts(t: Table, asset: AssetId, starts: Starts, h: RequestId)
    requires IsHead(t, h, asset) && !HasActive(t, asset) && Startable(t, h, starts)
    ensures Kicked(t, asset, starts) == t[h := t[h].(status := WaitingOpenai, responseId := Some(starts(h).value), turn := 1)]
  {
    forall id | id in t && id != h ensures KickedRow(t, asset, starts, id) == t[id] {
      if IsQueued(t, id, asset) { assert Before(t, h, id); }
    }
  }

  lemma KickFails(t: Table, asset: AssetId, starts: Starts, h: RequestId)
    requires IsHead(t, h, asset) && !HasActive(t, asset) && !Startable(t, h, starts)
    ensures var next := t[h := t[h].(status := Failed)];
      Kicked(t, asset, starts) == Kicked(next, asset, starts) && !HasActive(next, asset)
      && QueuedIds(next, asset) == QueuedIds(t, asset) - {h}
  {
    var next := t[h := t[h].(status := Failed)];
    assert forall a :: a in next ==> a in t && next[a].asset == t[a].asset && (Active(next[a].status) ==> Active(t[a].status));
    forall id | id in t ensures KickedRow(t, asset, starts, id) == KickedRow(next, asset, starts, id) {
      if id != h && IsQueued(t, id, asset) { KickFailsRow(t, asset, starts, h, id); }
    }
  }

  lemma KickFailsRow(t: Table, asset: AssetId, starts: Starts, h: RequestId, id: RequestId)
    requires IsHead(t, h, asset) && !Startable(t, h, starts) && IsQueued(t, id, asset) && id != h
    ensures var next := t[h := t[h].(status := Failed)];
      && (Startable(t, id, starts) <==> Startable(next, id, starts))
      && (EarlierStarts(t, asset, starts, id) <==> EarlierStarts(next, asset, starts, id))
  {
    var next := t[h := t[h].(status := Failed)];
    forall a, response ensures ResponseUsed(t, a, response) <==> ResponseUsed(next, a, response) {
      SameResponses(t, next, a, response);
    }
    if EarlierStarts(t, asset, starts, id) {
      var b :| b in t && IsQueued(t, b, asset) && Before(t, b, id) && Startable(t, b, starts);
      assert b in next && IsQueued(next, b, asset) && Before(next, b, id) && Startable(next, b, starts);
    }
    if EarlierStarts(next, asset, starts, id) {
      var b :| b in next && IsQueued(next, b, asset) && Before(next, b, id) && Startable(next, b, starts);
      assert b in t && IsQueued(t, b, asset) && Before(t, b, id) && Startable(t, b, starts);
    }
  }

  /** After a kick the app is working, or nothing is waiting for it. */
  lemma KickServes(t: Table, asset: AssetId, starts: Starts)
    ensures Served(Kicked(t, asset, starts), asset)
  {
    var next := Kicked(t, asset, starts);
    var startable := set id | id in QueuedIds(t, asset) && Startable(t, id, starts);
    if HasActive(t, asset) {
      var a :| a in t && t[a].asset == asset && Active(t[a].status);
      assert next[a] == t[a];
    } else if startable != {} {
      var h := FirstOf(t, startable);
      assert !EarlierStarts(t, asset, starts, h) by {
        assert forall b :: b in t && IsQueued(t, b, asset) && Startable(t, b, starts) ==> b in startable;
      }
      assert next[h].asset == asset && Active(next[h].status);
    } else {
      assert forall b :: b in t && IsQueued(t, b, asset) && Startable(t, b, starts) ==> b in startable;
      forall id | id in next ensures !IsQueued(next, id, asset) {
        assert !EarlierStarts(t, asset, starts, id);
      }
    }
  }

  /** A request is only started ahead of an older one that could not start. */
  lemma KickIsFair(t: Table, asset: AssetId, starts: Starts, a: RequestId, b: RequestId)
    requires !HasActive(t, asset) && IsQueued(t, a, asset) && IsQueued(t, b, asset) && Before(t, a, b)
    requires Kicked(t, asset, starts)[b].status != Queued
    ensures Kicked(t, asset, starts)[a].status == Failed && !Startable(t, a, starts)
  {
    assert !EarlierStarts(t, asset, starts, b);
    assert !Startable(t, a, starts);
    assert forall c :: c in t && IsQueued(t, c, asset) && Before(t, c, a) ==> Before(t, c, b);
    assert !EarlierStarts(t, asset, starts, a);
  }

  /** A kick leaves every other app as it was. */
  lemma KickStaysInApp(t: Table, asset: AssetId, starts: Starts, other: AssetId)
    requires other != asset
    ensures forall id :: id in t && t[id].asset == other ==> Kicked(t, asset, starts)[id] == t[id]
    ensures Served(t, other) ==> Served(Kicked(t, asset, starts), other)
  {
    var next := Kicked(t, asset, starts);
    if HasActive(t, other) {
      var a :| a in t && t[a].asset == other && Active(t[a].status);
      assert next[a] == t[a];
    }
    if QueuedIds(t, other) == {} {
      forall id | id in next ensures !IsQueued(next, id, other) { assert id !in QueuedIds(t, other); }
    }
  }
}
