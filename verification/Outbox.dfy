/**
The application's side of the hand-off: one transaction that authorizes an
update, and one that hands the waiting authorization to the host.
*/
module UpdateOutbox {
  import opened Options
  import opened UpdateHandOff
  import opened HandOffSafety

  /** What the call to the host brings back; anything uncertain leaves the authorization waiting. */
  datatype HostAnswer = Told(id: Id, digest: Digest) | Turned | Uncertain

  datatype AuthorizationResult = Known | New | Conflict | Unproved

  class Outbox {
    var rows: map<Id, Authorization>

    constructor ()
      ensures OnePending(rows) && rows == map[]
    {
      rows := map[];
    }

    /**
    A request id is bound to its digest by its first authorization. An exact retry is a receipt
    lookup and costs no factor; a new authorization costs one, and waits alone.
    */
    method Authorize(id: Id, digest: Digest, expired: set<Id>, factor: bool) returns (result: AuthorizationResult)
      requires OnePending(rows)
      modifies this
      ensures OnePending(rows) && old(rows.Keys) <= rows.Keys <= old(rows.Keys) + {id}
      ensures forall other | other in old(rows) ::
                rows[other] == old(rows)[other]
                    || (old(rows)[other].state.Pending? && other in expired
                    && rows[other] == old(rows)[other].(state := Cancelled))
      ensures result.New? <==>
                id !in old(rows) && factor && forall other | other in old(rows) && old(rows)[other].state.Pending? ::
                other in expired
      ensures result.New? ==> id in rows && rows[id] == Authorization(digest, Pending)
      ensures result.Known? <==>
                id in old(rows) && old(rows)[id].digest == digest && !old(rows)[id].state.Cancelled?
                && !(old(rows)[id].state.Pending? && id in expired)
      ensures !result.New? ==> rows == old(rows)
    {
      if id in rows {
        if rows[id].digest != digest { return Conflict; }
        if rows[id].state.Cancelled? || (rows[id].state.Pending? && id in expired) { return Conflict; }
        return Known;
      }
      var kept := map other | other in rows ::
        if rows[other].state.Pending? && other in expired then rows[other].(state := Cancelled) else rows[other];
      var waiting := set other | other in kept && kept[other].state.Pending?;
      if waiting != {} {
        var other :| other in waiting;
        assert rows[other].state.Pending? && other !in expired;
        return Conflict;
      }
      if !factor { return Unproved; }
      assert forall other | other in rows :: other !in waiting;
      rows := kept[id := Authorization(digest, Pending)];
      assert forall other | other in kept :: other !in waiting && !kept[other].state.Pending?;
      result := New;
    }

    /** Only an answer that names exactly this id and digest counts as handed over; a refusal cancels, silence waits. */
    method Dispatch(live: bool, answer: HostAnswer) returns (id: Option<Id>)
      requires OnePending(rows)
      modifies this
      ensures OnePending(rows) && rows.Keys == old(rows.Keys)
      ensures id.None? <==> forall other | other in old(rows) :: !old(rows)[other].state.Pending?
      ensures id.None? ==> rows == old(rows)
      ensures id.Some? ==>
                && id.value in old(rows) && old(rows)[id.value].state.Pending?
                && var was := old(rows)[id.value];
                   rows == old(rows)[id.value := was.(state :=
                     if !live || answer.Turned? then Cancelled
                     else if answer == Told(id.value, was.digest) then Dispatched else Pending)]
    {
      var waiting := set other | other in rows && rows[other].state.Pending?;
      if waiting == {} {
        assert forall other | other in rows :: other !in waiting;
        return None;
      }
      var next :| next in waiting;
      var row := rows[next];
      id := Some(next);
      if !live || answer.Turned? {
        rows := rows[next := row.(state := Cancelled)];
      } else if answer == Told(next, row.digest) {
        rows := rows[next := row.(state := Dispatched)];
      }
      assert old(rows)[next := row] == old(rows);
    }
  }
}
