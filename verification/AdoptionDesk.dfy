/** The adoption service on its stored rows: each call reserves a candidate, decides step by
    step, writes the target, closes the candidate and records the audit. */
module AdoptionDesk {
  import opened Wrappers
  import opened FieldAdoption

  class Desk {
    var candidates: map<nat, Candidate>
    var values: map<Place, string>
    var audits: map<nat, Audit>
    const canon: string -> string

    function View(): World reads this { World(candidates, values, audits) }

    constructor (values: map<Place, string>, canon: string -> string)
      ensures View() == Initial(values) && this.canon == canon
    {
      this.candidates, this.values, this.audits, this.canon := map[], values, map[], canon;
    }

    // Conditional update: only an open candidate is taken.
    method ReserveCandidate(id: nat, actor: nat) returns (acquired: bool)
      requires id in candidates
      modifies this`candidates
      ensures acquired <==> old(candidates)[id].status == OPEN
      ensures candidates == if acquired
        then old(candidates)[id := old(candidates)[id].(status := PROCESSING, error := NoError, holder := Some(actor))]
        else old(candidates)
    {
      acquired := candidates[id].status == OPEN;
      if acquired { candidates := candidates[id := candidates[id].(status := PROCESSING, error := NoError, holder := Some(actor))]; }
    }

    /** Completion takes effect only for the actor holding the reservation; repeating the same
        completion is accepted without effect, any other is refused. */
    method CompleteCandidate(id: nat, actor: nat, status: Status, error: ErrorCode) returns (done: bool)
      requires id in candidates
      modifies this`candidates
      ensures var c := old(candidates)[id];
        var held := c.status == PROCESSING && c.holder == Some(actor) && Terminal(status);
        && (done <==> Terminal(status) && (held || c.status == status))
        && candidates == if held then old(candidates)[id := c.(status := status, error := error)] else old(candidates)
    {
      if !Terminal(status) { return false; }
      if candidates[id].status == PROCESSING && candidates[id].holder == Some(actor) {
        candidates := candidates[id := candidates[id].(status := status, error := error)];
        return true;
      }
      return candidates[id].status == status;
    }

    // Get or create: the first outcome recorded for a candidate stays.
    method RecordAdoptionAudit(id: nat, a: Audit)
      modifies this`audits
      ensures audits == if id in old(audits) then old(audits) else old(audits)[id := a]
    {
      if id !in audits { audits := audits[id := a]; }
    }

    // The rows while one actor works on a candidate: reserved, and perhaps already written.
    ghost predicate Working(before: World, id: nat, actor: nat, write: Option<string>)
      reads this
    {
      && id in before.candidates
      && var c := before.candidates[id];
      && candidates == before.candidates[id := c.(status := PROCESSING, error := NoError, holder := Some(actor))]
      && values == (if write.Some? then before.values[c.place := write.value] else before.values)
      && audits == before.audits
    }

    method CompleteResult(
      id: nat, actor: nat, status: Status, outcome: Outcome, error: ErrorCode, current: string, final: string, rejecting: bool,
      ghost before: World, ghost write: Option<string>)
      returns (answer: Option<Outcome>)
      requires Working(before, id, actor, write) && Terminal(status)
      modifies this
      ensures Reply(View(), answer) == Finished(before, id, actor, Ends(status, outcome, error, current, final, write), rejecting)
    {
      var done := CompleteCandidate(id, actor, status, error);
      var kept := if outcome == Adopted || outcome == AdoptedEdited then final else current;
      RecordAdoptionAudit(id, Audit(rejecting, outcome, error, current, kept));
      assert candidates == Closed(before, id, actor, Ends(status, outcome, error, current, final, write), rejecting).candidates;
      return Some(outcome);
    }

    // The rows come back as they were when a call raises inside its transaction.
    method Rollback(w: World)
      modifies this
      ensures View() == w
    {
      candidates, values, audits := w.candidates, w.values, w.audits;
    }

    method AdoptFieldCandidate(id: nat, actor: nat, edit: Edit, x: Context) returns (answer: Option<Outcome>)
      modifies this
      ensures Reply(View(), answer) == AdoptReply(old(View()), id, actor, edit, x, canon)
    {
      if id !in candidates { return None; }
      var before := View();
      var acquired := ReserveCandidate(id, actor);
      if !acquired { return Some(Decode(candidates[id])); }
      var c := candidates[id];
      if !x.supported {
        answer := CompleteResult(id, actor, FAILED, Failed, UnsupportedField, "", "", false, before, None);
      } else if c.place !in values {
        answer := CompleteResult(id, actor, STALE, TargetMissing, NoTarget, "", "", false, before, None);
      } else if !x.intact {
        answer := CompleteResult(id, actor, STALE, Stale, NotIntact, "", "", false, before, None);
      } else if !Allowed(x.uncertainty, RequestedAction(c, edit, canon)) {
        answer := CompleteResult(id, actor, FAILED, ActionNotAllowed, NoSuchAction, "", "", false, before, None);
      } else if x.validity != Valid {
        answer := EndInvalid(id, actor, x.validity, false, before);
      } else if !x.canEdit {
        answer := CompleteResult(id, actor, FAILED, PermissionDenied, NoPermission, "", "", false, before, None);
      } else {
        answer := WriteField(id, actor, edit, x, before);
      }
    }

    method EndInvalid(id: nat, actor: nat, validity: Validity, rejecting: bool, before: World) returns (answer: Option<Outcome>)
      requires validity != Valid
      requires Working(before, id, actor, None)
      modifies this
      ensures Reply(View(), answer) == Finished(before, id, actor, ValidityFailure(validity).value, rejecting)
    {
      match validity
      case Missing => answer := CompleteResult(id, actor, STALE, TargetMissing, NoTarget, "", "", rejecting, before, None);
      case Inactive => answer := CompleteResult(id, actor, STALE, TargetInactive, InactiveTarget, "", "", rejecting, before, None);
      case Outdated => answer := CompleteResult(id, actor, STALE, Stale, StaleCandidate, "", "", rejecting, before, None);
      case Unreadable => Rollback(before); answer := None;
    }

    // The compare-and-write at the heart of an adoption.
    method WriteField(id: nat, actor: nat, edit: Edit, x: Context, before: World) returns (answer: Option<Outcome>)
      requires Working(before, id, actor, None) && before.candidates[id].place in before.values
      modifies this
      ensures var c := before.candidates[id];
        Reply(View(), answer) == Finished(before, id, actor, WriteVerdict(c, canon(before.values[c.place]), edit, x, canon), false)
    {
      var c := candidates[id];
      var current := canon(values[c.place]);
      if canon(current) != c.hash {
        answer := CompleteResult(id, actor, CONFLICT, FieldConflict, ConflictSeen, current, "", false, before, None);
        return;
      }
      if edit.NotText? {
        answer := CompleteResult(id, actor, FAILED, ValidationFailed, NotValid, current, "", false, before, None);
        return;
      }
      var final := canon(if edit.Text? then edit.text else c.proposed);
      var edited := edit.Text? && final != c.proposed;
      var status, outcome := if edited then ADOPTED_EDITED else ADOPTED, if edited then AdoptedEdited else Adopted;
      if canon(final) == canon(current) {
        answer := CompleteResult(id, actor, status, outcome, NoError, current, current, false, before, None);
        return;
      }
      match x.prepare(final)
      case Raised =>
        Rollback(before);
        answer := None;
      case Invalid =>
        answer := CompleteResult(id, actor, FAILED, ValidationFailed, NotValid, current, "", false, before, None);
      case Cleaned(text) =>
        values := values[c.place := text];
        answer := CompleteResult(id, actor, status, outcome, NoError, current, canon(values[c.place]), false, before, Some(text));
    }

    method RejectFieldCandidate(id: nat, actor: nat, x: Context) returns (answer: Option<Outcome>)
      modifies this
      ensures Reply(View(), answer) == RejectReply(old(View()), id, actor, x, canon)
    {
      if id !in candidates { return None; }
      var before := View();
      var acquired := ReserveCandidate(id, actor);
      var c := candidates[id];
      if !acquired {
        if c.status == CONFLICT { answer := DiscardConflictCandidate(id, x); } else { answer := Some(Decode(c)); }
        return;
      }
      if !Allowed(x.uncertainty, Reject) {
        answer := CompleteResult(id, actor, FAILED, ActionNotAllowed, NoSuchAction, "", "", true, before, None);
      } else if !x.supported {
        answer := CompleteResult(id, actor, FAILED, Failed, UnsupportedField, "", "", true, before, None);
      } else if c.place !in values {
        answer := CompleteResult(id, actor, STALE, TargetMissing, NoTarget, "", "", true, before, None);
      } else if !x.intact {
        answer := CompleteResult(id, actor, STALE, Stale, NotIntact, "", "", true, before, None);
      } else if x.validity != Valid {
        answer := EndInvalid(id, actor, x.validity, true, before);
      } else if !x.canEdit {
        answer := CompleteResult(id, actor, FAILED, PermissionDenied, NoPermission, "", "", true, before, None);
      } else {
        answer := CompleteResult(id, actor, REJECTED, Rejected, NoError, canon(values[c.place]), "", true, before, None);
      }
    }

    method DiscardConflictCandidate(id: nat, x: Context) returns (answer: Option<Outcome>)
      requires id in candidates && candidates[id].status == CONFLICT
      modifies this`candidates
      ensures Reply(View(), answer) == DiscardReply(old(View()), id, x)
    {
      if !x.supported { return Some(Decode(candidates[id])); }
      if candidates[id].place in values && !x.canEdit { return Some(PermissionDenied); }
      candidates := candidates[id := candidates[id].(status := REJECTED, error := ConflictDiscarded)];
      return Some(Rejected);
    }

    method SupersedeOpenCandidates(place: Place, except: nat)
      modifies this`candidates
      ensures candidates == Superseded(old(candidates), place, except)
    {
      candidates := map id | id in candidates ::
        if candidates[id].place == place && candidates[id].status == OPEN && id != except
        then candidates[id].(status := SUPERSEDED, error := SupersededByNew) else candidates[id];
    }

    /** Candidates are made one by one; a suggestion without text undoes the whole batch. */
    method CreateAdoptionCandidates(batch: seq<Suggestion>) returns (accepted: bool)
      modifies this
      ensures View() == CreateAll(old(View()), batch, canon).GetOr(old(View()))
      ensures accepted <==> CreateAll(old(View()), batch, canon).Some?
    {
      var before := View();
      for i := 0 to |batch|
        invariant CreateAll(before, batch[..i], canon) == Some(View())
      {
        var s := batch[i];
        assert batch[..i + 1][..i] == batch[..i] && batch[..i + 1][i] == s;
        if s.place.Some? && s.id !in candidates {
          if s.text.None? || s.place.value !in values {
            CreateAllStuck(before, batch, i + 1, canon);
            Rollback(before);
            return false;
          }
          SupersedeOpenCandidates(s.place.value, s.id);
          candidates := candidates[s.id := Snapshot(s, values[s.place.value], canon)];
        }
      }
      assert batch[..|batch|] == batch;
      return true;
    }
  }

  lemma {:induction false} CreateAllStuck(w: World, batch: seq<Suggestion>, n: nat, canon: string -> string)
    requires n <= |batch| && CreateAll(w, batch[..n], canon).None?
    ensures CreateAll(w, batch, canon).None?
    decreases |batch| - n
  {
    if n < |batch| {
      assert batch[..n + 1][..n] == batch[..n];
      CreateAllStuck(w, batch, n + 1, canon);
    } else {
      assert batch[..n] == batch;
    }
  }
}
