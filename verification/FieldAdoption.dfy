/** Adopting suggested field texts into shared targets: candidates snapshot a field, and a later
    adoption may only replace what the snapshot saw. */
module FieldAdoption {
  import opened Wrappers
  import opened CanonicalText

  // The text normal form, of which only this is used.
  ghost predicate Idempotent(canon: string -> string) { forall s :: canon(canon(s)) == canon(s) }

  function Canon(nfc: string -> string): string -> string { s => Canonicalize(s, nfc) }

  /** The normal form of the field texts qualifies. */
  lemma CanonIsIdempotent(nfc: string -> string)
    requires Normalizer(nfc)
    ensures Idempotent(Canon(nfc))
  {
    forall s ensures Canon(nfc)(Canon(nfc)(s)) == Canon(nfc)(s) { CanonicalizeIdempotent(s, nfc); }
  }

  datatype Place = Place(kind: string, id: nat, field: string)

  datatype Status = OPEN | PROCESSING | ADOPTED | ADOPTED_EDITED | REJECTED | CONFLICT | SUPERSEDED | STALE | FAILED

  datatype Outcome =
    Adopted | AdoptedEdited | Rejected | FieldConflict | Stale | TargetMissing | TargetInactive
  | PermissionDenied | ValidationFailed | ActionNotAllowed | InProgress | Failed

  datatype ErrorCode =
    NoError | ConflictSeen | NoTarget | InactiveTarget | NoPermission | NotValid | NoSuchAction
  | StaleCandidate | NotIntact | UnsupportedField | SupersededByNew | ConflictDiscarded

  datatype Uncertainty = Low | Medium | High | Unknown
  datatype Action = Direct | Edited | Reject
  datatype Validity = Valid | Missing | Inactive | Outdated | Unreadable
  datatype Prepared = Cleaned(text: string) | Invalid | Raised
  datatype Edit = NoEdit | NotText | Text(text: string)

  datatype Candidate = Candidate(place: Place, proposed: string, previous: string, hash: string, status: Status, error: ErrorCode, holder: Option<nat>)
  datatype Audit = Audit(rejecting: bool, outcome: Outcome, error: ErrorCode, current: string, final: string)
  datatype World = World(candidates: map<nat, Candidate>, values: map<Place, string>, audits: map<nat, Audit>)

  // What one call finds out about its candidate from records outside this model.
  datatype Context = Context(
    supported: bool, intact: bool, uncertainty: Uncertainty, validity: Validity, canEdit: bool, prepare: string -> Prepared)

  // ---------- decoding a stored end ----------

  function StatusOutcome(s: Status): Outcome {
    match s
    case ADOPTED => Adopted
    case ADOPTED_EDITED => AdoptedEdited
    case REJECTED => Rejected
    case CONFLICT => FieldConflict
    case STALE => Stale
    case PROCESSING => InProgress
    case _ => Failed
  }

  function Decode(c: Candidate): Outcome {
    match c.error
    case ConflictSeen => FieldConflict
    case NoTarget => TargetMissing
    case InactiveTarget => TargetInactive
    case NoPermission => PermissionDenied
    case NotValid => ValidationFailed
    case NoSuchAction => ActionNotAllowed
    case _ => StatusOutcome(c.status)
  }

  // ---------- the decision on a reserved candidate ----------

  datatype Verdict =
    Raises
  | Ends(status: Status, outcome: Outcome, error: ErrorCode, current: string, final: string, write: Option<string>)

  function Ended(status: Status, outcome: Outcome, error: ErrorCode): Verdict {
    Ends(status, outcome, error, "", "", None)
  }

  predicate Allowed(u: Uncertainty, a: Action) {
    match u
    case Low => true
    case Medium => a != Direct
    case High => a == Reject
    case Unknown => false
  }

  function RequestedAction(c: Candidate, edit: Edit, canon: string -> string): Action {
    match edit
    case NoEdit => Direct
    case NotText => Edited
    case Text(t) => if canon(t) == c.proposed then Direct else Edited
  }

  function RequestedText(c: Candidate, edit: Edit): string {
    if edit.Text? then edit.text else c.proposed
  }

  function ValidityFailure(v: Validity): Option<Verdict> {
    match v
    case Valid => None
    case Unreadable => Some(Raises)
    case Missing => Some(Ended(STALE, TargetMissing, NoTarget))
    case Inactive => Some(Ended(STALE, TargetInactive, InactiveTarget))
    case Outdated => Some(Ended(STALE, Stale, StaleCandidate))
  }

  function AdoptVerdict(c: Candidate, value: Option<string>, edit: Edit, x: Context, canon: string -> string): Verdict {
    if !x.supported then Ended(FAILED, Failed, UnsupportedField)
    else if value.None? then Ended(STALE, TargetMissing, NoTarget)
    else if !x.intact then Ended(STALE, Stale, NotIntact)
    else if !Allowed(x.uncertainty, RequestedAction(c, edit, canon)) then Ended(FAILED, ActionNotAllowed, NoSuchAction)
    else if ValidityFailure(x.validity).Some? then ValidityFailure(x.validity).value
    else if !x.canEdit then Ended(FAILED, PermissionDenied, NoPermission)
    else WriteVerdict(c, canon(value.value), edit, x, canon)
  }

  function WriteVerdict(c: Candidate, current: string, edit: Edit, x: Context, canon: string -> string): Verdict {
    var final := canon(RequestedText(c, edit));
    var edited := edit != NoEdit && final != c.proposed;
    var status := if edited then ADOPTED_EDITED else ADOPTED;
    if canon(current) != c.hash then Ends(CONFLICT, FieldConflict, ConflictSeen, current, "", None)
    else if edit.NotText? then Ends(FAILED, ValidationFailed, NotValid, current, "", None)
    else if canon(final) == canon(current) then Ends(status, StatusOutcome(status), NoError, current, current, None)
    else
      match x.prepare(final)
      case Raised => Raises
      case Invalid => Ends(FAILED, ValidationFailed, NotValid, current, "", None)
      case Cleaned(text) => Ends(status, StatusOutcome(status), NoError, current, canon(text), Some(text))
  }

  function RejectVerdict(value: Option<string>, x: Context, canon: string -> string): Verdict {
    if !Allowed(x.uncertainty, Reject) then Ended(FAILED, ActionNotAllowed, NoSuchAction)
    else if !x.supported then Ended(FAILED, Failed, UnsupportedField)
    else if value.None? then Ended(STALE, TargetMissing, NoTarget)
    else if !x.intact then Ended(STALE, Stale, NotIntact)
    else if ValidityFailure(x.validity).Some? then ValidityFailure(x.validity).value
    else if !x.canEdit then Ended(FAILED, PermissionDenied, NoPermission)
    else Ends(REJECTED, Rejected, NoError, canon(value.value), "", None)
  }

  // ---------- whole calls ----------

  function ValueAt(w: World, p: Place): Option<string> {
    if p in w.values then Some(w.values[p]) else None
  }

  function AuditOf(v: Verdict, rejecting: bool): Audit
    requires v.Ends?
  {
    Audit(rejecting, v.outcome, v.error, v.current, if v.outcome == Adopted || v.outcome == AdoptedEdited then v.final else v.current)
  }

  function Closed(w: World, id: nat, actor: nat, v: Verdict, rejecting: bool): World
    requires id in w.candidates && v.Ends?
  {
    var c := w.candidates[id];
    World(w.candidates[id := c.(status := v.status, error := v.error, holder := Some(actor))],
          if v.write.Some? then w.values[c.place := v.write.value] else w.values,
          if id in w.audits then w.audits else w.audits[id := AuditOf(v, rejecting)])
  }

  // The state after a call and its answer; a call that raises is rolled back and answers nothing.
  datatype Reply = Reply(world: World, outcome: Option<Outcome>)

  function Finished(w: World, id: nat, actor: nat, v: Verdict, rejecting: bool): Reply
    requires id in w.candidates
  {
    if v.Raises? then Reply(w, None) else Reply(Closed(w, id, actor, v, rejecting), Some(v.outcome))
  }

  function AdoptReply(w: World, id: nat, actor: nat, edit: Edit, x: Context, canon: string -> string): Reply {
    if id !in w.candidates then Reply(w, None)
    else
      var c := w.candidates[id];
      if c.status != OPEN then Reply(w, Some(Decode(c)))
      else Finished(w, id, actor, AdoptVerdict(c, ValueAt(w, c.place), edit, x, canon), false)
  }

  function DiscardReply(w: World, id: nat, x: Context): Reply
    requires id in w.candidates
  {
    var c := w.candidates[id];
    if !x.supported then Reply(w, Some(Decode(c)))
    else if c.place in w.values && !x.canEdit then Reply(w, Some(PermissionDenied))
    else Reply(w.(candidates := w.candidates[id := c.(status := REJECTED, error := ConflictDiscarded)]), Some(Rejected))
  }

  function RejectReply(w: World, id: nat, actor: nat, x: Context, canon: string -> string): Reply {
    if id !in w.candidates then Reply(w, None)
    else
      var c := w.candidates[id];
      if c.status == CONFLICT then DiscardReply(w, id, x)
      else if c.status != OPEN then Reply(w, Some(Decode(c)))
      else Finished(w, id, actor, RejectVerdict(ValueAt(w, c.place), x, canon), true)
  }

  // ---------- creating candidates ----------

  // A suggestion whose path names no adoptable field has no place; one that is no text has no text.
  datatype Suggestion = Suggestion(id: nat, place: Option<Place>, text: Option<string>)

  function Superseded(cs: map<nat, Candidate>, place: Place, except: nat): map<nat, Candidate> {
    map id | id in cs ::
      if cs[id].place == place && cs[id].status == OPEN && id != except
      then cs[id].(status := SUPERSEDED, error := SupersededByNew)
      else cs[id]
  }

  function Snapshot(s: Suggestion, value: string, canon: string -> string): Candidate
    requires s.place.Some? && s.text.Some?
  {
    Candidate(s.place.value, canon(s.text.value), canon(value), canon(value), OPEN, NoError, None)
  }

  function CreateOne(w: World, s: Suggestion, canon: string -> string): Option<World> {
    if s.place.None? || s.id in w.candidates then Some(w)
    else if s.text.None? || s.place.value !in w.values then None
    else Some(w.(candidates :=
      Superseded(w.candidates, s.place.value, s.id)[s.id := Snapshot(s, w.values[s.place.value], canon)]))
  }

  function CreateAll(w: World, batch: seq<Suggestion>, canon: string -> string): Option<World> {
    if batch == [] then Some(w)
    else match CreateAll(w, batch[..|batch| - 1], canon)
      case None => None
      case Some(v) => CreateOne(v, batch[|batch| - 1], canon)
  }

  // ---------- runs ----------

  datatype Event =
    Adopt(id: nat, actor: nat, edit: Edit, x: Context)
  | Dismiss(id: nat, actor: nat, x: Context)
  | Create(batch: seq<Suggestion>)
  | ExternalEdit(values: map<Place, string>)

  function Apply(w: World, e: Event, canon: string -> string): World {
    match e
    case Adopt(id, actor, edit, x) => AdoptReply(w, id, actor, edit, x, canon).world
    case Dismiss(id, actor, x) => RejectReply(w, id, actor, x, canon).world
    case Create(batch) => CreateAll(w, batch, canon).GetOr(w)
    case ExternalEdit(values) => w.(values := values)
  }

  function Run(w: World, events: seq<Event>, canon: string -> string): World {
    if events == [] then w else Apply(Run(w, events[..|events| - 1], canon), events[|events| - 1], canon)
  }

  function Initial(values: map<Place, string>): World { World(map[], values, map[]) }

  // ---------- what every run keeps ----------

  predicate Terminal(s: Status) { s != OPEN && s != PROCESSING }

  predicate CandidateInv(w: World, id: nat, canon: string -> string)
    requires id in w.candidates
  {
    var c := w.candidates[id];
    && c.status != PROCESSING
    && c.hash == c.previous == canon(c.previous)
    && (id in w.audits <==> Terminal(c.status) && c.status != SUPERSEDED)
    && (id in w.audits ==> AuditAgrees(c, w.audits[id]))
  }

  // The audit keeps the first outcome, also when a conflict is discarded afterwards.
  predicate AuditAgrees(c: Candidate, a: Audit) {
    if c.error == ConflictDiscarded then c.status == REJECTED && a.outcome == FieldConflict
    else Decode(c) == a.outcome && (c.status == CONFLICT ==> a.outcome == FieldConflict)
  }

  predicate OneOpen(w: World) {
    forall i, j | i in w.candidates && j in w.candidates && w.candidates[i].status == OPEN && w.candidates[j].status == OPEN ::
      w.candidates[i].place == w.candidates[j].place ==> i == j
  }

  predicate Inv(w: World, canon: string -> string) {
    && w.audits.Keys <= w.candidates.Keys
    && (forall id :: id in w.candidates ==> CandidateInv(w, id, canon))
    && OneOpen(w)
  }

  /** Whatever a first call answers, the stored status and error code decode to that answer. */
  lemma VerdictsDecode(c: Candidate, value: Option<string>, edit: Edit, x: Context, canon: string -> string, v: Verdict)
    requires v == AdoptVerdict(c, value, edit, x, canon) || v == RejectVerdict(value, x, canon)
    ensures v.Ends? ==>
      && Terminal(v.status) && v.status != SUPERSEDED && v.error != ConflictDiscarded
      && Decode(c.(status := v.status, error := v.error)) == v.outcome
      && (v.status == CONFLICT ==> v.outcome == FieldConflict)
  {}

  lemma ClosedKeepsInv(w: World, id: nat, actor: nat, v: Verdict, rejecting: bool, canon: string -> string)
    requires Inv(w, canon) && id in w.candidates && w.candidates[id].status == OPEN && v.Ends?
    requires Terminal(v.status) && v.status != SUPERSEDED && v.error != ConflictDiscarded
    requires Decode(w.candidates[id].(status := v.status, error := v.error)) == v.outcome
    requires v.status == CONFLICT ==> v.outcome == FieldConflict
    ensures Inv(Closed(w, id, actor, v, rejecting), canon)
  {
    var r := Closed(w, id, actor, v, rejecting);
    assert CandidateInv(w, id, canon) && id !in w.audits;
    forall i | i in r.candidates ensures CandidateInv(r, i, canon) { assert CandidateInv(w, i, canon); }
  }

  lemma AdoptKeepsInv(w: World, id: nat, actor: nat, edit: Edit, x: Context, canon: string -> string)
    requires Inv(w, canon)
    ensures Inv(AdoptReply(w, id, actor, edit, x, canon).world, canon)
  {
    if id in w.candidates && w.candidates[id].status == OPEN {
      var c := w.candidates[id];
      var v := AdoptVerdict(c, ValueAt(w, c.place), edit, x, canon);
      VerdictsDecode(c, ValueAt(w, c.place), edit, x, canon, v);
      if v.Ends? { ClosedKeepsInv(w, id, actor, v, false, canon); }
    }
  }

  lemma RejectKeepsInv(w: World, id: nat, actor: nat, x: Context, canon: string -> string)
    requires Inv(w, canon)
    ensures Inv(RejectReply(w, id, actor, x, canon).world, canon)
  {
    if id in w.candidates {
      var c := w.candidates[id];
      if c.status == OPEN {
        var v := RejectVerdict(ValueAt(w, c.place), x, canon);
        VerdictsDecode(c, ValueAt(w, c.place), NoEdit, x, canon, v);
        if v.Ends? { ClosedKeepsInv(w, id, actor, v, true, canon); }
      } else if c.status == CONFLICT {
        var r := DiscardReply(w, id, x).world;
        assert CandidateInv(w, id, canon);
        forall i | i in r.candidates ensures CandidateInv(r, i, canon) { assert CandidateInv(w, i, canon); }
      }
    }
  }

  lemma CreateOneKeepsCandidates(w: World, s: Suggestion, canon: string -> string)
    requires Idempotent(canon) && Inv(w, canon) && CreateOne(w, s, canon).Some?
    ensures var r := CreateOne(w, s, canon).value;
      r.audits.Keys <= r.candidates.Keys && forall id :: id in r.candidates ==> CandidateInv(r, id, canon)
  {
    var r := CreateOne(w, s, canon).value;
    forall i | i in r.candidates ensures CandidateInv(r, i, canon) { if i in w.candidates { assert CandidateInv(w, i, canon); } }
  }

  lemma CreateOneKeepsOneOpen(w: World, s: Suggestion, canon: string -> string)
    requires OneOpen(w) && CreateOne(w, s, canon).Some?
    ensures OneOpen(CreateOne(w, s, canon).value)
  {
    if s.place.Some? && s.id !in w.candidates {
      var r := CreateOne(w, s, canon).value;
      forall i, j | i in r.candidates && j in r.candidates && r.candidates[i].status == OPEN && r.candidates[j].status == OPEN
        && r.candidates[i].place == r.candidates[j].place ensures i == j {
        if i != s.id && j != s.id { assert w.candidates[i].status == OPEN && w.candidates[j].status == OPEN; }
      }
    }
  }

  lemma {:induction false} CreateAllKeepsInv(w: World, batch: seq<Suggestion>, canon: string -> string)
    requires Idempotent(canon) && Inv(w, canon) && CreateAll(w, batch, canon).Some?
    ensures Inv(CreateAll(w, batch, canon).value, canon)
    ensures CreateAll(w, batch, canon).value.values == w.values
  {
    if batch != [] {
      CreateAllKeepsInv(w, batch[..|batch| - 1], canon);
      var before := CreateAll(w, batch[..|batch| - 1], canon).value;
      CreateOneKeepsCandidates(before, batch[|batch| - 1], canon);
      CreateOneKeepsOneOpen(before, batch[|batch| - 1], canon);
    }
  }

  lemma StepKeepsInv(w: World, e: Event, canon: string -> string)
    requires Idempotent(canon) && Inv(w, canon)
    ensures Inv(Apply(w, e, canon), canon)
  {
    match e
    case Adopt(id, actor, edit, x) => AdoptKeepsInv(w, id, actor, edit, x, canon);
    case Dismiss(id, actor, x) => RejectKeepsInv(w, id, actor, x, canon);
    case Create(batch) => if CreateAll(w, batch, canon).Some? { CreateAllKeepsInv(w, batch, canon); }
    case ExternalEdit(values) => assert forall i :: i in w.candidates ==> CandidateInv(w, i, canon) ==> CandidateInv(w.(values := values), i, canon);
  }

  /** Over every interleaving of creating, adopting, rejecting and foreign edits: at most one
      candidate per field is open, none is left in processing, and each finished candidate has
      exactly one audit, which agrees with it unless a conflict was discarded. */
  lemma {:induction false} InvReachable(values: map<Place, string>, events: seq<Event>, canon: string -> string)
    requires Idempotent(canon)
    ensures Inv(Run(Initial(values), events, canon), canon)
  {
    if events != [] {
      InvReachable(values, events[..|events| - 1], canon);
      StepKeepsInv(Run(Initial(values), events[..|events| - 1], canon), events[|events| - 1], canon);
    }
  }

  // ---------- no lost update ----------

  ghost predicate AdoptionCondition(w: World, id: nat, edit: Edit, x: Context, canon: string -> string) {
    && id in w.candidates
    && var c := w.candidates[id];
    && c.status == OPEN && x.supported && x.intact && x.validity == Valid && x.canEdit && !edit.NotText?
    && Allowed(x.uncertainty, RequestedAction(c, edit, canon))
    && c.place in w.values && canon(w.values[c.place]) == c.previous
    && (canon(RequestedText(c, edit)) == c.previous || x.prepare(canon(RequestedText(c, edit))).Cleaned?)
  }

  /** A call adopts exactly when its candidate is open and intact, the action is allowed for its
      uncertainty, the target is valid and editable, the field still reads as it did in the
      snapshot, and the requested text is what stands there already or passes the form. */
  lemma AdoptsExactly(w: World, id: nat, actor: nat, edit: Edit, x: Context, canon: string -> string)
    requires Idempotent(canon) && Inv(w, canon) && id in w.candidates && w.candidates[id].status == OPEN
    ensures AdoptionCondition(w, id, edit, x, canon) <==>
      var o := AdoptReply(w, id, actor, edit, x, canon).outcome; o == Some(Adopted) || o == Some(AdoptedEdited)
  {
    var c := w.candidates[id];
    assert CandidateInv(w, id, canon);
  }

  ghost predicate RejectionCondition(w: World, id: nat, x: Context) {
    && id in w.candidates && w.candidates[id].status == OPEN && Allowed(x.uncertainty, Reject)
    && x.supported && x.intact && x.validity == Valid && x.canEdit && w.candidates[id].place in w.values
  }

  /** A call rejects an open candidate exactly when the candidate is intact, its target is there,
      valid and editable; what the field reads is no condition.  Whatever the answer, no target
      changes. */
  lemma RejectsExactly(w: World, id: nat, actor: nat, x: Context, canon: string -> string)
    requires id in w.candidates && w.candidates[id].status == OPEN
    ensures RejectReply(w, id, actor, x, canon).outcome == Some(Rejected) <==> RejectionCondition(w, id, x)
    ensures RejectReply(w, id, actor, x, canon).world.values == w.values
  {}

  // What an outcome says about the call it answers.
  ghost predicate Explains(o: Outcome, c: Candidate, value: Option<string>, edit: Edit, x: Context, canon: string -> string) {
    match o
    case FieldConflict => value.Some? && canon(canon(value.value)) != c.hash
    case PermissionDenied => !x.canEdit
    case ActionNotAllowed => !Allowed(x.uncertainty, RequestedAction(c, edit, canon))
    case TargetMissing => value.None? || x.validity == Missing
    case TargetInactive => x.validity == Inactive
    case Stale => !x.intact || x.validity == Outdated
    case Failed => !x.supported
    case ValidationFailed => edit.NotText? || x.prepare(canon(RequestedText(c, edit))).Invalid?
    case Adopted => edit == NoEdit || canon(RequestedText(c, edit)) == c.proposed
    case AdoptedEdited => edit.Text? && canon(edit.text) != c.proposed
    case _ => false
  }

  /** Every answer of a first call names its cause. */
  lemma OutcomesNameTheirCause(c: Candidate, value: Option<string>, edit: Edit, x: Context, canon: string -> string)
    ensures var v := AdoptVerdict(c, value, edit, x, canon);
      v.Ends? ==> Explains(v.outcome, c, value, edit, x, canon)
  {}

  lemma AdoptionWrites(w: World, id: nat, actor: nat, edit: Edit, x: Context, canon: string -> string)
    requires Idempotent(canon) && Inv(w, canon) && AdoptReply(w, id, actor, edit, x, canon).world.values != w.values
    ensures id in w.candidates && w.candidates[id].status == OPEN && id !in w.audits
    ensures var c := w.candidates[id];
      var v := AdoptVerdict(c, ValueAt(w, c.place), edit, x, canon);
      && v.Ends? && v.write.Some? && c.place in w.values && v.final == canon(v.write.value)
      && x.prepare(canon(RequestedText(c, edit))) == Cleaned(v.write.value)
      && x.uncertainty != High && v.status == (if v.outcome == AdoptedEdited then ADOPTED_EDITED else ADOPTED)
      && (v.outcome == Adopted || v.outcome == AdoptedEdited) && (x.uncertainty == Medium ==> v.outcome == AdoptedEdited)
  {
    assert CandidateInv(w, id, canon);
    var c := w.candidates[id];
    if edit.NoEdit? || (edit.Text? && canon(edit.text) == c.proposed) { assert RequestedAction(c, edit, canon) == Direct; }
  }

  lemma OnlyAdoptionsWrite(w: World, e: Event, canon: string -> string)
    requires !e.ExternalEdit? && Apply(w, e, canon).values != w.values
    ensures e.Adopt?
  {
    if e.Create? && CreateAll(w, e.batch, canon).Some? { CreateAllValues(w, e.batch, canon); }
  }

  /** Only an adoption or a foreign edit changes a target.  An adoption changes its own field
      alone, only from a text that reads as the snapshot and only to the prepared form of the
      requested text, and ends as adopted; it never happens
      at high uncertainty, and at medium uncertainty only with an edited text. */
  lemma NoLostUpdate(w: World, e: Event, canon: string -> string)
    requires Idempotent(canon) && Inv(w, canon) && !e.ExternalEdit? && Apply(w, e, canon).values != w.values
    ensures e.Adopt? && AdoptionCondition(w, e.id, e.edit, e.x, canon) && e.id !in w.audits
    ensures var c, r := w.candidates[e.id], Apply(w, e, canon);
      && r.values.Keys == w.values.Keys
      && (forall p :: p != c.place ==> ValueAt(r, p) == ValueAt(w, p))
      && r.candidates[e.id].status == (if e.x.uncertainty == Medium || r.audits[e.id].outcome == AdoptedEdited then ADOPTED_EDITED else ADOPTED)
      && e.x.uncertainty != High
      && r.audits[e.id].final == canon(r.values[c.place])
      && e.x.prepare(canon(RequestedText(c, e.edit))) == Cleaned(r.values[c.place])
  {
    OnlyAdoptionsWrite(w, e, canon);
    AdoptionWrites(w, e.id, e.actor, e.edit, e.x, canon);
    AdoptsExactly(w, e.id, e.actor, e.edit, e.x, canon);
  }

  // The candidate carries a suggestion of the batch and what its field reads.
  ghost predicate CandidateOf(c: Candidate, w: World, batch: seq<Suggestion>, id: nat, canon: string -> string) {
    && ReadAs(w, c.place, c.previous, canon)
    && exists s :: s in batch && s.id == id && s.place == Some(c.place) && s.text.Some? && c.proposed == canon(s.text.value)
  }

  lemma {:induction false} CreateAllSnapshots(w: World, batch: seq<Suggestion>, canon: string -> string, id: nat)
    requires CreateAll(w, batch, canon).Some? && id in CreateAll(w, batch, canon).value.candidates
    ensures var v := CreateAll(w, batch, canon).value;
      && v.values == w.values
      && if id in w.candidates then SameOffer(w.candidates[id], v.candidates[id])
         else CandidateOf(v.candidates[id], w, batch, id, canon)
  {
    if batch != [] {
      var v := CreateAll(w, batch[..|batch| - 1], canon).value;
      CreateAllValues(w, batch[..|batch| - 1], canon);
      if id in v.candidates { CreateAllSnapshots(w, batch[..|batch| - 1], canon, id); }
    }
  }

  lemma {:induction false} CreateAllValues(w: World, batch: seq<Suggestion>, canon: string -> string)
    requires CreateAll(w, batch, canon).Some?
    ensures CreateAll(w, batch, canon).value.values == w.values
    ensures w.candidates.Keys <= CreateAll(w, batch, canon).value.candidates.Keys
  {
    if batch != [] { CreateAllValues(w, batch[..|batch| - 1], canon); }
  }

  predicate SameOffer(c: Candidate, d: Candidate) {
    c.place == d.place && c.proposed == d.proposed && c.previous == d.previous && c.hash == d.hash
  }

  /** Every candidate goes back to one creation of the run: it proposes the canonical text of a
      suggestion made there, and its snapshot is what its field really read at that moment. */
  lemma {:induction false} SnapshotWasReal(values: map<Place, string>, events: seq<Event>, canon: string -> string, id: nat)
    returns (j: nat)
    requires id in Run(Initial(values), events, canon).candidates
    ensures j < |events|
    ensures events[j].Create? && CandidateOf(
      Run(Initial(values), events, canon).candidates[id], Run(Initial(values), events[..j], canon), events[j].batch, id, canon)
  {
    var n := |events| - 1;
    var w := Run(Initial(values), events[..n], canon);
    var e := events[n];
    if e.Create? && CreateAll(w, e.batch, canon).Some? {
      CreateAllSnapshots(w, e.batch, canon, id);
    }
    if id in w.candidates {
      j := SnapshotWasReal(values, events[..n], canon, id);
      assert events[..n][..j] == events[..j];
    } else {
      j := n;
    }
  }

  predicate ReadAs(w: World, p: Place, text: string, canon: string -> string) {
    p in w.values && canon(w.values[p]) == text
  }

  /** Over whole runs: an adoption that changes a field finds it reading as it did at the moment
      the candidate was made. */
  lemma AdoptionReplacesWhatWasSeen(values: map<Place, string>, events: seq<Event>, e: Event, canon: string -> string) returns (j: nat)
    requires Idempotent(canon) && !e.ExternalEdit?
    requires var w := Run(Initial(values), events, canon); Apply(w, e, canon).values != w.values
    ensures e.Adopt? && e.id in Run(Initial(values), events, canon).candidates && j < |events|
    ensures var w := Run(Initial(values), events, canon);
      var c := w.candidates[e.id];
      ReadAs(w, c.place, c.previous, canon) && ReadAs(Run(Initial(values), events[..j], canon), c.place, c.previous, canon)
  {
    InvReachable(values, events, canon);
    NoLostUpdate(Run(Initial(values), events, canon), e, canon);
    j := SnapshotWasReal(values, events, canon, e.id);
  }

  // ---------- replay and finality ----------

  // The only way out of a terminal status.
  predicate Discarded(c: Candidate, d: Candidate) {
    c.status == CONFLICT && d == c.(status := REJECTED, error := ConflictDiscarded)
  }

  lemma {:induction false} CreateAllKeepsFinished(w: World, batch: seq<Suggestion>, canon: string -> string, id: nat)
    requires CreateAll(w, batch, canon).Some? && id in w.candidates && w.candidates[id].status != OPEN
    ensures id in CreateAll(w, batch, canon).value.candidates
    ensures CreateAll(w, batch, canon).value.candidates[id] == w.candidates[id]
  {
    if batch != [] { CreateAllKeepsFinished(w, batch[..|batch| - 1], canon, id); }
  }

  /** A finished candidate stays as it is through every further run, save that a conflict may
      once be discarded; it is never opened or superseded again. */
  lemma {:induction false} FinishedIsFinal(w: World, events: seq<Event>, canon: string -> string, id: nat)
    requires id in w.candidates && Terminal(w.candidates[id].status)
    ensures id in Run(w, events, canon).candidates
    ensures var d := Run(w, events, canon).candidates[id]; d == w.candidates[id] || Discarded(w.candidates[id], d)
  {
    if events != [] {
      var v := Run(w, events[..|events| - 1], canon);
      FinishedIsFinal(w, events[..|events| - 1], canon, id);
      match events[|events| - 1]
      case Create(batch) => if CreateAll(v, batch, canon).Some? { CreateAllKeepsFinished(v, batch, canon, id); }
      case _ =>
    }
  }

  lemma FirstAnswer(w: World, id: nat, r: Reply, v: Verdict, actor: nat, rejecting: bool, canon: string -> string)
    requires id in w.candidates && r == Finished(w, id, actor, v, rejecting) && r.outcome.Some?
    requires v.Ends? ==> Terminal(v.status) && Decode(w.candidates[id].(status := v.status, error := v.error)) == v.outcome
    ensures id in r.world.candidates && Terminal(r.world.candidates[id].status)
    ensures r.outcome == Some(Decode(r.world.candidates[id]))
  {}

  lemma FinishedReply(w: World, id: nat, actor: nat, edit: Edit, x: Context, canon: string -> string)
    requires id in w.candidates && Terminal(w.candidates[id].status)
    ensures AdoptReply(w, id, actor, edit, x, canon) == Reply(w, Some(Decode(w.candidates[id])))
    ensures w.candidates[id].status != CONFLICT ==>
      RejectReply(w, id, actor, x, canon) == Reply(w, Some(Decode(w.candidates[id])))
  {}

  // What one finished candidate answers from then on.
  ghost predicate AnswersFrom(first: Reply, later: World, id: nat, replay: Reply) {
    && replay.world == later
    && (replay.outcome == first.outcome
        || (id in first.world.candidates && first.world.candidates[id].status == CONFLICT && replay.outcome == Some(Rejected)))
  }

  lemma FinishedReplays(
    first: Reply, id: nat, events: seq<Event>, actor: nat, edit: Edit, x: Context, canon: string -> string)
    requires id in first.world.candidates && Terminal(first.world.candidates[id].status)
    requires first.outcome == Some(Decode(first.world.candidates[id]))
    ensures var later := Run(first.world, events, canon);
      && AnswersFrom(first, later, id, AdoptReply(later, id, actor, edit, x, canon))
      && (first.world.candidates[id].status != CONFLICT ==> RejectReply(later, id, actor, x, canon) == Reply(later, first.outcome))
  {
    FinishedIsFinal(first.world, events, canon, id);
    FinishedReply(Run(first.world, events, canon), id, actor, edit, x, canon);
  }

  /** Whatever happened since, repeating a finished adoption changes nothing and answers what
      the first call answered, unless that was a conflict and it was discarded meanwhile. */
  lemma AdoptionReplays(
    w: World, id: nat, actor: nat, edit: Edit, x: Context, events: seq<Event>,
    actor': nat, edit': Edit, x': Context, canon: string -> string)
    requires id in w.candidates && w.candidates[id].status == OPEN && AdoptReply(w, id, actor, edit, x, canon).outcome.Some?
    ensures var first := AdoptReply(w, id, actor, edit, x, canon);
      var later := Run(first.world, events, canon);
      AnswersFrom(first, later, id, AdoptReply(later, id, actor', edit', x', canon))
  {
    var c := w.candidates[id];
    var v := AdoptVerdict(c, ValueAt(w, c.place), edit, x, canon);
    VerdictsDecode(c, ValueAt(w, c.place), edit, x, canon, v);
    FirstAnswer(w, id, AdoptReply(w, id, actor, edit, x, canon), v, actor, false, canon);
    FinishedReplays(AdoptReply(w, id, actor, edit, x, canon), id, events, actor', edit', x', canon);
  }

  /** A rejection never answers a conflict, so its replay is unconditional. */
  lemma RejectionReplays(
    w: World, id: nat, actor: nat, x: Context, events: seq<Event>, actor': nat, x': Context, canon: string -> string)
    requires id in w.candidates && w.candidates[id].status == OPEN && RejectReply(w, id, actor, x, canon).outcome.Some?
    ensures var first := RejectReply(w, id, actor, x, canon);
      var later := Run(first.world, events, canon);
      RejectReply(later, id, actor', x', canon) == Reply(later, first.outcome)
  {
    var c := w.candidates[id];
    var v := RejectVerdict(ValueAt(w, c.place), x, canon);
    VerdictsDecode(c, ValueAt(w, c.place), NoEdit, x, canon, v);
    FirstAnswer(w, id, RejectReply(w, id, actor, x, canon), v, actor, true, canon);
    FinishedReplays(RejectReply(w, id, actor, x, canon), id, events, actor', NoEdit, x', canon);
  }

  /** A conflict is discarded exactly if its field is still adoptable and the actor may edit the
      target, should it still exist; a refused discard changes nothing. */
  lemma DiscardsExactly(w: World, id: nat, actor: nat, x: Context, canon: string -> string)
    requires id in w.candidates && w.candidates[id].status == CONFLICT
    ensures var r := RejectReply(w, id, actor, x, canon);
      && (r.outcome == Some(Rejected) <==> x.supported && (w.candidates[id].place in w.values ==> x.canEdit))
      && (r.outcome != Some(Rejected) ==> r.world == w)
      && (r.outcome == Some(Rejected) ==>
            id in r.world.candidates && Discarded(w.candidates[id], r.world.candidates[id]) && r.world.values == w.values)
  {}

  lemma DiscardedDecodes(c: Candidate, d: Candidate)
    requires Discarded(c, d)
    ensures Terminal(d.status) && d.status != CONFLICT && Decode(d) == Rejected
  {}

  /** Once a conflict is discarded, the same request answers the same and changes nothing,
      whatever happened since. */
  lemma DiscardReplays(
    w: World, id: nat, actor: nat, x: Context, events: seq<Event>, actor': nat, x': Context, canon: string -> string)
    requires id in w.candidates && w.candidates[id].status == CONFLICT
    requires RejectReply(w, id, actor, x, canon).outcome == Some(Rejected)
    ensures var later := Run(RejectReply(w, id, actor, x, canon).world, events, canon);
      RejectReply(later, id, actor', x', canon) == Reply(later, Some(Rejected))
  {
    var first := RejectReply(w, id, actor, x, canon);
    DiscardsExactly(w, id, actor, x, canon);
    DiscardedDecodes(w.candidates[id], first.world.candidates[id]);
    FinishedReplays(first, id, events, actor', NoEdit, x', canon);
  }
}
