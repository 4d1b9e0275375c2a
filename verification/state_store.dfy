/** StateManager over the single bot_state row
    (bot_state/state_manager.py, bot_state/state_repo.py). */
module StateStore {
  import opened Wrappers
  import opened BotStateModel

  class StateRepository {
    var row: BotState

    constructor (virtualBalance: real)
      ensures row == InitialState(virtualBalance)
    {
      row := InitialState(virtualBalance);
    }

    method Load() returns (s: BotState)
      ensures s == row
    {
      s := row;
    }

    method Save(s: BotState) returns (r: Result<BotState, Error>)
      modifies this
      ensures Write(row, r) == BotStateModel.Save(old(row), s)
    {
      if row.version != s.version - 1 {
        return Err(VersionConflict);
      }
      row := s;
      return Ok(s);
    }
  }

  class StateManager {
    const repo: StateRepository

    constructor (repo: StateRepository)
      ensures this.repo == repo
    {
      this.repo := repo;
    }

    method CheckInvariants(s: BotState) returns (r: Result<(), Error>)
      ensures r.Ok? <==> InvariantsHold(s)
      ensures r.Err? ==> r.error == InvariantViolated
    {
      var violations := 0;
      if s.positionQty < 0.0 { violations := violations + 1; }
      if s.virtualFree < 0.0 { violations := violations + 1; }
      if s.virtualLocked < 0.0 { violations := violations + 1; }
      r := if violations > 0 then Err(InvariantViolated) else Ok(());
    }

    method Commit(old_: BotState, new_: BotState) returns (r: Result<BotState, Error>)
      modifies repo
      ensures Write(repo.row, r) == BotStateModel.Commit(old(repo.row), old_, new_)
    {
      if old_.status != new_.status && !CanTransition(old_.status, new_.status) {
        return Err(InvalidTransition);
      }
      var checked := CheckInvariants(new_);
      if checked.Err? {
        return Err(checked.error);
      }
      var toSave := new_;
      if toSave.version <= old_.version {
        toSave := toSave.(version := toSave.version + 1);
      }
      r := repo.Save(toSave);
    }

    method Transition(s: BotState, to: CycleStatus, updated: BotState, reasonGiven: bool)
      returns (r: Result<BotState, Error>)
      modifies repo
      ensures Write(repo.row, r) == BotStateModel.Transition(old(repo.row), s, to, updated, reasonGiven)
    {
      var u := updated;
      if to == Idle && !reasonGiven {
        u := u.(closingReason := None);
      }
      r := Commit(s, u.(status := to, version := s.version + 1));
    }

    method Update(s: BotState, updated: BotState) returns (r: Result<BotState, Error>)
      modifies repo
      ensures Write(repo.row, r) == BotStateModel.Update(old(repo.row), s, updated)
    {
      var n := updated.(status := s.status, version := s.version + 1);
      var checked := CheckInvariants(n);
      if checked.Err? {
        return Err(checked.error);
      }
      r := repo.Save(n);
    }
  }
}
