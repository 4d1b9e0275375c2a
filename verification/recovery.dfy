/** StateRecovery over the live row (bot_state/state_recovery.py). Open orders and
    trades are what the broker answered. */
module Recovery {
  import opened Wrappers
  import opened Orders
  import opened BotStateModel
  import opened StateStore
  import opened RecoveryModel

  class StateRecovery {
    const manager: StateManager

    constructor (manager: StateManager)
      ensures this.manager == manager
    {
      this.manager := manager;
    }

    method ReconcileEntering(s: BotState, open: seq<OpenOrder>, fills: seq<Trade>) returns (r: Result<BotState, Error>)
      modifies manager.repo
      ensures Write(manager.repo.row, r) == RecoveryModel.ReconcileEntering(old(manager.repo.row), s, open, fills)
    {
      if Named(s.pendingClientId) && !Named(s.activeEntryId) {
        r := ReconcilePendingSend(s, open, fills);
        return;
      }
      if !Named(s.activeEntryId) {
        r := manager.Transition(s, StopCrane, s, false);
        return;
      }
      if IsOpen(open, s.activeEntryId.value) {
        return Ok(s);
      }
      var fill := FindFill(fills, s.activeEntryId, None);
      if fill.Some? {
        r := ApplyEntryFill(s, fill.value);
        return;
      }
      r := manager.Transition(s, Idle, s.(activeEntryId := None, pendingClientId := None), false);
    }

    method ReconcilePendingSend(s: BotState, open: seq<OpenOrder>, fills: seq<Trade>)
      returns (r: Result<BotState, Error>)
      requires Named(s.pendingClientId) && !Named(s.activeEntryId)
      modifies manager.repo
      ensures Write(manager.repo.row, r) == RecoveryModel.ReconcileEntering(old(manager.repo.row), s, open, fills)
    {
      var openId := ByClientId(open, s.pendingClientId.value);
      if openId.Some? {
        r := manager.Update(s, s.(activeEntryId := openId, pendingClientId := None));
        return;
      }
      var fill := FindFill(fills, None, s.pendingClientId);
      if fill.Some? {
        r := ApplyEntryFill(s, fill.value);
        return;
      }
      r := manager.Transition(s, StopCrane, s, false);
    }

    method ApplyEntryFill(s: BotState, fill: Trade) returns (r: Result<BotState, Error>)
      modifies manager.repo
      ensures Write(manager.repo.row, r) ==
          Transition(old(manager.repo.row), s, InPosition, EntryRecovered(s, fill), false)
    {
      var newAvg := Blend(s.positionQty, s.positionAvg.GetOr(0.0), fill, fill.price);
      var spent := s.quoteSpent + TradeCost(fill) + fill.commission;
      r := manager.Transition(s, InPosition,
                              s.(positionQty := s.positionQty + fill.qty, positionAvg := Some(newAvg),
                                 quoteSpent := spent,
                                 activeEntryId := None, pendingClientId := None, lastAppliedId := Some(fill.tradeId)),
                              false);
    }

    method ApplyPositionFills(s: BotState, fills: seq<Trade>) returns (r: Result<BotState, Error>, filled: set<OrderId>)
      modifies manager.repo
      ensures (Write(manager.repo.row, r), filled) == RecoveryModel.ApplyPositionFills(old(manager.repo.row), s, fills)
    {
      if fills == [] {
        return Ok(s), {};
      }
      var qty, avg := s.positionQty, s.positionAvg.GetOr(0.0);
      var spent, received := s.quoteSpent, s.quoteReceived;
      var last, changed := s.lastAppliedId, false;
      filled := {};
      var sorted := SortByTime(fills);
      var i := 0;
      while i < |sorted|
        invariant 0 <= i <= |sorted|
        invariant manager.repo.row == old(manager.repo.row)
        invariant Replay(qty, avg, spent, received, last, filled, changed) == ReplayAll(s, sorted[..i])
        invariant !changed ==> filled == {}
      {
        assert sorted[..i + 1][..i] == sorted[..i];
        var f := sorted[i];
        ghost var before := Replay(qty, avg, spent, received, last, filled, changed);
        if KindOf(s, f) == BuyTrade {
          avg := Blend(qty, avg, f, avg);
          qty := qty + f.qty;
          spent := spent + TradeCost(f) + f.commission;
          last := Some(f.tradeId);
          if IsDca(s, f) {
            filled := filled + {f.orderId};
          }
          changed := true;
        } else if KindOf(s, f) == SellTrade {
          qty := if qty - f.qty > 0.0 then qty - f.qty else 0.0;
          received := received + TradeCost(f) - f.commission;
          last := Some(f.tradeId);
          changed := true;
        }
        assert Replay(qty, avg, spent, received, last, filled, changed) == ReplayOne(s, before, f);
        i := i + 1;
      }
      assert sorted[..i] == sorted;
      if !changed {
        return Ok(s), filled;
      }
      r := manager.Update(s, s.(positionQty := qty, positionAvg := if qty > 0.0 then Some(avg) else None,
                                quoteSpent := spent, quoteReceived := received, lastAppliedId := last));
    }

    // One write for everything that left the book.
    method CleanIds(s: BotState, open: seq<OpenOrder>, filled: set<OrderId>) returns (r: Result<BotState, Error>)
      modifies manager.repo
      ensures Write(manager.repo.row, r) == RecoveryModel.CleanIds(old(manager.repo.row), s, open, filled)
    {
      var tp := s.activeTpId;
      if tp.Some? && !IsOpen(open, tp.value) {
        tp := None;
      }
      var surviving := SurvivingIds(s.activeDcaIds, open, filled);
      if tp == s.activeTpId && surviving == s.activeDcaIds {
        return Ok(s);
      }
      r := manager.Update(s, s.(activeTpId := tp, activeDcaIds := surviving));
    }

    method SurvivingIds(ids: seq<OrderId>, open: seq<OpenOrder>, filled: set<OrderId>) returns (surviving: seq<OrderId>)
      ensures surviving == Surviving(ids, Listed(open), filled)
    {
      surviving := [];
      var i := 0;
      while i < |ids|
        invariant 0 <= i <= |ids|
        invariant surviving == Surviving(ids[..i], Listed(open), filled)
      {
        assert ids[..i + 1][..i] == ids[..i];
        if ids[i] !in filled && IsOpen(open, ids[i]) {
          surviving := surviving + [ids[i]];
        }
        i := i + 1;
      }
      assert ids[..i] == ids;
    }

    method ReconcileInPosition(s: BotState, open: seq<OpenOrder>, fills: seq<Trade>, dust: real)
      returns (r: Result<BotState, Error>)
      requires s.status == InPosition
      modifies manager.repo
      ensures Write(manager.repo.row, r) == RecoveryModel.Dispatch(old(manager.repo.row), s, open, fills, dust)
    {
      var filled;
      r, filled := ApplyPositionFills(s, fills);
      if r.Err? {
        return;
      }
      r := CleanIds(r.value, open, filled);
      if r.Err? {
        return;
      }
      if r.value.positionQty <= dust {
        r := manager.Transition(r.value, Closing, r.value, false);
      }
    }

    method ReconcileWaiting(s: BotState, open: seq<OpenOrder>, fills: seq<Trade>, dust: real)
      returns (r: Result<BotState, Error>)
      requires s.status == WaitingForLiquidity
      modifies manager.repo
      ensures Write(manager.repo.row, r) == RecoveryModel.Dispatch(old(manager.repo.row), s, open, fills, dust)
    {
      var filled;
      r, filled := ApplyPositionFills(s, fills);
      if r.Err? {
        return;
      }
      if r.value.positionQty <= dust {
        r := manager.Transition(r.value, Closing, r.value, false);
        return;
      }
      r := CleanIds(r.value, open, filled);
      if r.Ok? {
        r := manager.Transition(r.value, InPosition, r.value, false);
      }
    }

    method ReconcileClosing(s: BotState, open: seq<OpenOrder>, fills: seq<Trade>, dust: real)
      returns (r: Result<BotState, Error>)
      requires s.status == Closing
      modifies manager.repo
      ensures Write(manager.repo.row, r) == RecoveryModel.Dispatch(old(manager.repo.row), s, open, fills, dust)
    {
      var filled;
      r, filled := ApplyPositionFills(s, fills);
      if r.Err? {
        return;
      }
      var s1 := r.value;
      if s1.positionQty <= dust {
        r := manager.Update(s1,
                            s1.(activeTpId := None, activeDcaIds := [], activeEntryId := None,
                                pendingClientId := None));
        if r.Ok? {
          r := manager.Transition(r.value, Idle, r.value, false);
        }
      } else if s1.activeTpId.Some? && !IsOpen(open, s1.activeTpId.value) {
        r := manager.Update(s1, s1.(activeTpId := None));
      }
    }

    method Dispatch(s: BotState, open: seq<OpenOrder>, fills: seq<Trade>, dust: real)
      returns (r: Result<BotState, Error>)
      modifies manager.repo
      ensures Write(manager.repo.row, r) == RecoveryModel.Dispatch(old(manager.repo.row), s, open, fills, dust)
    {
      match s.status
      case Idle => r := Ok(s);
      case StopCrane => r := Ok(s);
      case Entering => r := ReconcileEntering(s, open, fills);
      case InPosition => r := ReconcileInPosition(s, open, fills, dust);
      case Closing => r := ReconcileClosing(s, open, fills, dust);
      case WaitingForLiquidity => r := ReconcileWaiting(s, open, fills, dust);
    }

    method Reconcile(s: BotState, open: seq<OpenOrder>, fills: seq<Trade>, dust: real)
      returns (r: Result<BotState, Error>)
      modifies manager.repo
      ensures Write(manager.repo.row, r) == RecoveryModel.Reconcile(old(manager.repo.row), s, open, fills, dust)
    {
      r := Dispatch(s, open, fills, dust);
      if r.Err? {
        r := manager.Transition(s, StopCrane, s, false);
      }
    }
  }
}
