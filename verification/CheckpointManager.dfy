/** checkpoint_session and the upload part of pause_session as one host runs them without
    interruption, setting their flags and fields in sequence. */
module CheckpointManager {
  import opened Options
  import opened P = CheckpointProtocol

  type SessionId = string

  datatype Status = Active | Other

  /** The fields of a session's state that checkpointing reads and writes. */
  datatype Session = Session(status: Status, tree: Option<Tree>, s3Synced: bool, s3LastSync: Option<nat>)

  /** How the upload commands end. */
  datatype Fate = Succeeds | ReturnsFalse | Raises

  function AsHost(s: Session): Host {
    Host(true, s.s3LastSync, s.tree, Idle)
  }

  function CellOf(cells: map<SessionId, Version>, id: SessionId): Option<Version> {
    if id in cells then Some(cells[id]) else None
  }

  predicate WillUpload(cells: map<SessionId, Version>, sessions: map<SessionId, Session>, id: SessionId,
      readable: bool, fate: Fate) {
    && id in sessions && sessions[id].tree.Some? && fate.Succeeds?
    && !Refuses(CellOf(cells, id), sessions[id].s3LastSync, readable)
  }

  class Manager {
    var sessions: map<SessionId, Session>
    var cells: map<SessionId, Version>
    var inProgress: map<SessionId, bool>
    var lastCheckpoint: map<SessionId, nat>

    /** sync_session_to_s3 followed by the read-back and the bookkeeping: one shielded task. */
    method UploadAndRecord(id: SessionId, fate: Fate, gap: nat) returns (ok: bool)
      requires id in sessions
      modifies this`sessions, this`cells
      ensures ok == (fate.Succeeds? && old(sessions)[id].tree.Some?)
      ensures !ok ==> sessions == old(sessions) && cells == old(cells)
      ensures ok ==>
        var v := NextVersion(CellOf(old(cells), id), AsHost(old(sessions)[id]), gap);
        && cells == old(cells)[id := v]
        && sessions == old(sessions)[id := old(sessions)[id].(s3Synced := true, s3LastSync := Some(v.stamp))]
    {
      var s := sessions[id];
      if s.tree.None? || !fate.Succeeds? {
        return false;
      }
      cells := cells[id := NextVersion(CellOf(cells, id), AsHost(s), gap)];
      sessions := sessions[id := s.(s3Synced := true)];
      sessions := sessions[id := sessions[id].(s3LastSync := Some(cells[id].stamp))];
      ok := true;
    }

    method CheckpointSession(id: SessionId, storageEnabled: bool, readable: bool, fate: Fate, gap: nat, now: nat)
        returns (ok: bool)
      modifies this
      ensures ok <==> !(id in old(inProgress) && old(inProgress)[id]) && storageEnabled
                      && WillUpload(old(cells), old(sessions), id, readable, fate) && old(sessions)[id].status.Active?
      ensures !ok ==> sessions == old(sessions) && cells == old(cells) && lastCheckpoint == old(lastCheckpoint)
      ensures ok ==>
        var s := old(sessions)[id];
        var (cell, host) := Merged(CellOf(old(cells), id), AsHost(s), readable, gap);
        && cell.Some? && cells == old(cells)[id := cell.value]
        && sessions == old(sessions)[id := s.(s3Synced := true, s3LastSync := host.sync)]
        && lastCheckpoint == old(lastCheckpoint)[id := now]
      ensures inProgress == if id in old(inProgress) && old(inProgress)[id] then old(inProgress)
          else old(inProgress)[id := false]
    {
      if id in inProgress && inProgress[id] {
        return false;
      }
      inProgress := inProgress[id := true];
      ok := false;
      if id in sessions && sessions[id].status.Active? && storageEnabled {
        if !Refuses(CellOf(cells, id), sessions[id].s3LastSync, readable) {
          ok := UploadAndRecord(id, fate, gap);
          if ok {
            lastCheckpoint := lastCheckpoint[id := now];
          }
        }
      }
      inProgress := inProgress[id := false];
    }

    /** The upload part of a user's pause: a refusal is reported, not hidden. */
    method PauseSync(id: SessionId, readable: bool, fate: Fate, gap: nat) returns (conflict: bool, failed: bool)
      requires id in sessions
      modifies this`sessions, this`cells
      ensures conflict == Refuses(CellOf(old(cells), id), old(sessions)[id].s3LastSync, readable)
      ensures failed == (!conflict && !WillUpload(old(cells), old(sessions), id, readable, fate))
      ensures conflict || failed ==> sessions == old(sessions) && cells == old(cells)
      ensures !conflict && !failed ==>
        var s := old(sessions)[id];
        var (cell, host) := Merged(CellOf(old(cells), id), AsHost(s), readable, gap);
        && cell.Some? && cells == old(cells)[id := cell.value]
        && sessions == old(sessions)[id := s.(s3Synced := true, s3LastSync := host.sync)]
    {
      conflict, failed := false, false;
      if Refuses(CellOf(cells, id), sessions[id].s3LastSync, readable) {
        conflict := true;
      } else {
        var ok := UploadAndRecord(id, fate, gap);
        failed := !ok;
      }
    }
  }
}
