/** A session's state and the dictionary it is saved as, reduced to the fields that decide
    what a restarted server still knows. */
module Sessions {
  import opened Options

  type SessionId = string
  type Gpu = int

  datatype Status = Creating | Building | Active | Paused | Terminated | Failed

  /** `gpuIds` is what the session shows; what it holds is in the allocation registry. */
  datatype Session = Session(status: Status, gpuIds: seq<Gpu>, requested: nat, tpSize: nat, owner: Option<string>)

  /** A decoded session.json: fields added over time may be missing in an old file. */
  datatype Saved = Saved(status: Status, gpuIds: Option<seq<Gpu>>, requested: Option<nat>, tpSize: Option<nat>,
      owner: Option<string>)

  /** What stands on disk under a session's directory. */
  datatype File = Corrupt | Doc(saved: Saved)

  function ToDict(s: Session): Saved {
    Saved(s.status, Some(s.gpuIds), Some(s.requested), Some(s.tpSize), s.owner)
  }

  /** A missing or zero tp_size falls back to the number of GPUs requested. */
  function FromDict(d: Saved): Session {
    var requested := if d.requested.Some? then d.requested.value else 0;
    Session(d.status,
            if d.gpuIds.Some? then d.gpuIds.value else [],
            requested,
            if d.tpSize.Some? && d.tpSize.value != 0 then d.tpSize.value else requested,
            d.owner)
  }

  /** tp_size is 0 only where no GPU was requested. */
  predicate Sized(s: Session) {
    s.tpSize == 0 ==> s.requested == 0
  }

  /** Saving and loading gives the same session back exactly when it is sized. */
  lemma RoundTripIff(s: Session)
    ensures FromDict(ToDict(s)) == s <==> Sized(s)
  {
    assert FromDict(ToDict(s)) == s.(tpSize := FromDict(ToDict(s)).tpSize);
  }

  /** A file written before these fields were saved loads as the same session exactly when the
      session shows and asked for no GPUs. */
  lemma OldFileIff(s: Session)
    ensures FromDict(ToDict(s).(gpuIds := None, requested := None, tpSize := None)) == s
            <==> s.gpuIds == [] && s.requested == 0 && s.tpSize == 0
    ensures Sized(s) ==> FromDict(ToDict(s).(tpSize := None)) == s.(tpSize := s.requested)
  {
  }

  /** One load settles any file: what was loaded is sized and survives every later save. */
  lemma LoadSettles(d: Saved)
    ensures Sized(FromDict(d))
    ensures FromDict(ToDict(FromDict(d))) == FromDict(d)
    ensures FromDict(d.(status := Paused)) == FromDict(d).(status := Paused)
  {
    RoundTripIff(FromDict(d));
  }
}
