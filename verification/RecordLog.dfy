/** The append-only evidence log: per case and path one scored record, continued by repairs
    that each name the record they repair. */
module RecordLog {
  import opened Wrappers

  datatype Key = Key(caseId: string, path: string)

  datatype Record = Record(id: string, key: Key, scored: bool, preFix: string)

  // ---------- the specification ----------

  function Of(log: seq<Record>, key: Key): seq<Record> {
    if log == [] then []
    else
      var earlier, last := Of(log[..|log| - 1], key), log[|log| - 1];
      if last.key == key then earlier + [last] else earlier
  }

  predicate UniqueIds(log: seq<Record>) {
    forall i, j :: 0 <= i < j < |log| ==> log[i].id != log[j].id
  }

  // One scored record, then repairs naming the record right before them.
  predicate LinearChain(rs: seq<Record>) {
    forall i :: 0 <= i < |rs| ==> Link(rs, i)
  }

  predicate Link(rs: seq<Record>, i: nat)
    requires i < |rs|
  {
    if i == 0 then rs[0].scored else !rs[i].scored && rs[i].preFix == rs[i - 1].id
  }

  function Tip(log: seq<Record>, key: Key): Record
    requires Of(log, key) != []
  {
    Of(log, key)[|Of(log, key)| - 1]
  }

  ghost predicate ValidLog(log: seq<Record>) {
    UniqueIds(log) && forall key :: LinearChain(Of(log, key))
  }

  // ---------- how one record extends a log ----------

  predicate Continues(rs: seq<Record>, r: Record) {
    if r.scored then rs == [] else rs != [] && r.preFix == rs[|rs| - 1].id
  }

  lemma OfAppend(log: seq<Record>, r: Record, key: Key)
    ensures Of(log + [r], key) == if r.key == key then Of(log, key) + [r] else Of(log, key)
  {
    assert (log + [r])[..|log|] == log;
  }

  lemma ChainAppend(rs: seq<Record>, r: Record)
    ensures LinearChain(rs + [r]) <==> LinearChain(rs) && Continues(rs, r)
  {
    var t := rs + [r];
    assert forall i :: 0 <= i < |rs| ==> (Link(rs, i) <==> Link(t, i));
    assert Link(t, |rs|) <==> Continues(rs, r);
  }

  /** A record is accepted after a log exactly when the log is accepted, its id is new, and it
      either opens its case and path or repairs the latest record there. */
  lemma AppendExactly(log: seq<Record>, r: Record)
    ensures ValidLog(log + [r]) <==>
      ValidLog(log) && (forall q :: q in log ==> q.id != r.id) && Continues(Of(log, r.key), r)
  {
    var t := log + [r];
    forall key ensures LinearChain(Of(t, key)) <==> LinearChain(Of(log, key)) && (key == r.key ==> Continues(Of(log, key), r)) {
      OfAppend(log, r, key);
      if key == r.key { ChainAppend(Of(log, key), r); }
    }
    if UniqueIds(t) {
      forall i, j | 0 <= i < j < |log| ensures log[i].id != log[j].id { assert t[i].id != t[j].id; }
      forall q | q in log ensures q.id != r.id {
        var i :| 0 <= i < |log| && log[i] == q;
        assert t[i].id != t[|log|].id;
      }
    }
    if ValidLog(t) {
      forall key ensures LinearChain(Of(log, key)) { assert LinearChain(Of(t, key)); }
      assert LinearChain(Of(t, r.key));
    }
  }

  /** Acceptance is prefix-closed: an accepted log was accepted at every earlier length. */
  lemma {:induction false} PrefixClosed(log: seq<Record>, n: nat)
    requires ValidLog(log) && n <= |log|
    ensures ValidLog(log[..n])
    decreases |log|
  {
    if n < |log| {
      var rest := log[..|log| - 1];
      assert log == rest + [log[|log| - 1]];
      AppendExactly(rest, log[|log| - 1]);
      PrefixClosed(rest, n);
      assert rest[..n] == log[..n];
    } else {
      assert log[..n] == log;
    }
  }

  // ---------- the one-pass check ----------

  datatype Reason = DuplicateId | SlotTaken | UnknownPredecessor | OtherPredecessorKey | NotLatest
  datatype Rejection = Rejection(at: nat, reason: Reason)

  // What each reason says of a record after the log before it.
  ghost predicate RejectedFor(log: seq<Record>, r: Record, reason: Reason) {
    if reason == DuplicateId then exists q :: q in log && q.id == r.id
    else if reason == SlotTaken then r.scored && Of(log, r.key) != []
    else if r.scored then false
    else
      match reason
      case UnknownPredecessor => forall q :: q in log ==> q.id != r.preFix
      case OtherPredecessorKey => exists q :: q in log && q.id == r.preFix && q.key != r.key
      case _ => !Continues(Of(log, r.key), r) && exists q :: q in log && q.id == r.preFix && q.key == r.key
  }

  ghost predicate Known(log: seq<Record>, ids: set<string>, known: map<string, Record>) {
    && known.Keys == ids
    && (forall q :: q in log ==> q.id in known && known[q.id] == q)
    && (forall id :: id in known ==> known[id] in log && known[id].id == id)
  }

  ghost predicate Latest(log: seq<Record>, slots: set<Key>, latest: map<Key, string>) {
    forall key :: LatestAt(log, slots, latest, key)
  }

  predicate LatestAt(log: seq<Record>, slots: set<Key>, latest: map<Key, string>, key: Key) {
    if Of(log, key) == [] then key !in slots && key !in latest
    else key in slots && key in latest && latest[key] == Tip(log, key).id
  }

  lemma {:induction false} OfMembers(log: seq<Record>, key: Key, r: Record)
    ensures r in Of(log, key) <==> r in log && r.key == key
  {
    if log != [] {
      OfMembers(log[..|log| - 1], key, r);
      assert log == log[..|log| - 1] + [log[|log| - 1]];
    }
  }

  lemma KnownStep(log: seq<Record>, r: Record, ids: set<string>, known: map<string, Record>)
    requires Known(log, ids, known) && r.id !in ids
    ensures Known(log + [r], ids + {r.id}, known[r.id := r])
  {
    assert forall q :: q in log + [r] <==> q in log || q == r;
  }

  lemma LatestStep(log: seq<Record>, r: Record, slots: set<Key>, latest: map<Key, string>)
    requires Latest(log, slots, latest)
    ensures Latest(log + [r], slots + {r.key}, latest[r.key := r.id])
  {
    var longer, taken, last := log + [r], slots + {r.key}, latest[r.key := r.id];
    forall key ensures LatestAt(longer, taken, last, key) {
      assert LatestAt(log, slots, latest, key);
      OfAppend(log, r, key);
    }
  }

  /** The pass over sets and dictionaries accepts exactly the valid logs, and names the first
      record at which a log stops being one. */
  method ValidateRecordUniqueness(log: seq<Record>) returns (rejection: Option<Rejection>)
    ensures rejection.None? <==> ValidLog(log)
    ensures rejection.Some? ==>
      var n := rejection.value.at; n < |log| && ValidLog(log[..n]) && !ValidLog(log[..n + 1])
    ensures rejection.Some? ==> var n := rejection.value.at; n < |log| && RejectedFor(log[..n], log[n], rejection.value.reason)
  {
    var ids: set<string> := {};
    var slots: set<Key> := {};
    var known: map<string, Record> := map[];
    var latest: map<Key, string> := map[];
    for i := 0 to |log|
      invariant ValidLog(log[..i]) && Known(log[..i], ids, known) && Latest(log[..i], slots, latest)
    {
      var r := log[i];
      assert log[..i + 1] == log[..i] + [r];
      AppendExactly(log[..i], r);
      assert (forall q :: q in log[..i] ==> q.id != r.id) <==> r.id !in ids;
      var problem := Check(log[..i], r, ids, slots, known, latest);
      if problem.Some? {
        if ValidLog(log) { PrefixClosed(log, i + 1); }
        return Some(Rejection(i, problem.value));
      }
      KnownStep(log[..i], r, ids, known);
      LatestStep(log[..i], r, slots, latest);
      ids := ids + {r.id};
      slots := slots + {r.key};
      known := known[r.id := r];
      latest := latest[r.key := r.id];
    }
    assert log[..|log|] == log;
    return None;
  }

  // One record against the tables; only the log they were scanned from is ghost.
  method Check(
    ghost log: seq<Record>, r: Record, ids: set<string>, slots: set<Key>, known: map<string, Record>, latest: map<Key, string>)
    returns (problem: Option<Reason>)
    requires Known(log, ids, known) && Latest(log, slots, latest)
    ensures problem.None? <==> r.id !in ids && Continues(Of(log, r.key), r)
    ensures problem.Some? ==> RejectedFor(log, r, problem.value)
  {
    if r.id in ids { return Some(DuplicateId); }
    assert LatestAt(log, slots, latest, r.key);
    if r.scored {
      return if r.key in slots then Some(SlotTaken) else None;
    }
    if r.key in latest { OfMembers(log, r.key, Tip(log, r.key)); }
    if r.preFix !in known { return Some(UnknownPredecessor); }
    if known[r.preFix].key != r.key { return Some(OtherPredecessorKey); }
    OfMembers(log, r.key, known[r.preFix]);
    if r.key !in latest || latest[r.key] != r.preFix { return Some(NotLatest); }
    return None;
  }

  // ---------- the stored log ----------

  class RecordFile {
    var log: seq<Record>

    constructor ()
      ensures log == [] && ValidLog(log)
    {
      log := [];
    }

    /** Appending re-reads and re-checks the whole file; what is stored stays, and a refused
        record leaves no trace. */
    method AppendRecord(r: Record) returns (accepted: bool)
      modifies this
      ensures accepted <==> ValidLog(old(log)) && ValidLog(old(log) + [r])
      ensures log == if accepted then old(log) + [r] else old(log)
      ensures ValidLog(old(log)) ==> ValidLog(log)
    {
      var existing := ValidateRecordUniqueness(log);
      if existing.Some? { return false; }
      var extended := ValidateRecordUniqueness(log + [r]);
      if extended.Some? { return false; }
      log := log + [r];
      return true;
    }
  }

  // ---------- the current record of each case ----------

  const AUTONOMOUS := "autonomous"

  // Cases in the order of their first autonomous record.
  function Cases(log: seq<Record>): seq<string> {
    if log == [] then []
    else
      var earlier, last := Cases(log[..|log| - 1]), log[|log| - 1].key;
      if last.path == AUTONOMOUS && last.caseId !in earlier then earlier + [last.caseId] else earlier
  }

  lemma {:induction false} CasesExactly(log: seq<Record>, c: string)
    ensures c in Cases(log) <==> Of(log, Key(c, AUTONOMOUS)) != []
  {
    if log != [] { CasesExactly(log[..|log| - 1], c); }
  }

  lemma {:induction false} CasesDistinct(log: seq<Record>)
    ensures forall i, j :: 0 <= i < j < |Cases(log)| ==> Cases(log)[i] != Cases(log)[j]
  {
    if log != [] { CasesDistinct(log[..|log| - 1]); }
  }

  ghost predicate CurrentEntries(log: seq<Record>, entries: map<string, Record>) {
    && (forall c :: c in entries <==> Of(log, Key(c, AUTONOMOUS)) != [])
    && (forall c :: c in entries ==> Of(log, Key(c, AUTONOMOUS)) != [] && entries[c] == Tip(log, Key(c, AUTONOMOUS)))
  }

  lemma CurrentStep(log: seq<Record>, r: Record, entries: map<string, Record>)
    requires CurrentEntries(log, entries)
    ensures CurrentEntries(log + [r], if r.key.path == AUTONOMOUS then entries[r.key.caseId := r] else entries)
  {
    forall c ensures Of(log + [r], Key(c, AUTONOMOUS)) ==
      if r.key == Key(c, AUTONOMOUS) then Of(log, Key(c, AUTONOMOUS)) + [r] else Of(log, Key(c, AUTONOMOUS))
    {
      OfAppend(log, r, Key(c, AUTONOMOUS));
    }
  }

  /** Overwriting a dictionary entry per case leaves the end of each case's chain. */
  method CurrentAutonomousRecords(log: seq<Record>) returns (current: seq<Record>)
    ensures |current| == |Cases(log)|
    ensures forall i :: 0 <= i < |current| ==>
      Of(log, Key(Cases(log)[i], AUTONOMOUS)) != [] && current[i] == Tip(log, Key(Cases(log)[i], AUTONOMOUS))
  {
    var order: seq<string> := [];
    var entries: map<string, Record> := map[];
    for i := 0 to |log|
      invariant order == Cases(log[..i])
      invariant CurrentEntries(log[..i], entries)
    {
      var r := log[i];
      assert log[..i + 1] == log[..i] + [r] && log[..i + 1][..i] == log[..i];
      CurrentStep(log[..i], r, entries);
      if r.key.path == AUTONOMOUS {
        CasesExactly(log[..i], r.key.caseId);
        if r.key.caseId !in entries { order := order + [r.key.caseId]; }
        entries := entries[r.key.caseId := r];
      }
    }
    assert log[..|log|] == log;
    forall i | 0 <= i < |order| ensures order[i] in entries { CasesExactly(log, order[i]); }
    current := seq(|order|, i requires 0 <= i < |order| && order[i] in entries => entries[order[i]]);
  }

  lemma UniqueById(log: seq<Record>, p: Record, q: Record)
    requires UniqueIds(log) && p in log && q in log && p.id == q.id
    ensures p == q
  {
    var i :| 0 <= i < |log| && log[i] == p;
    var j :| 0 <= j < |log| && log[j] == q;
  }

  /** In a valid log a record is the current one of its case and path exactly when no repair
      names it: repairs never branch and never cross over to another case or path. */
  lemma TipExactly(log: seq<Record>, r: Record)
    requires ValidLog(log) && r in log
    ensures Of(log, r.key) != []
    ensures r == Tip(log, r.key) <==> forall q :: q in log && !q.scored ==> q.preFix != r.id
  {
    var rs := Of(log, r.key);
    OfMembers(log, r.key, r);
    var i :| 0 <= i < |rs| && rs[i] == r;
    assert LinearChain(rs);
    if i + 1 < |rs| {
      var next := rs[i + 1];
      OfMembers(log, r.key, next);
      assert Link(rs, i + 1) && next in log && !next.scored && next.preFix == r.id;
      ChainHasNoRepeats(log, r.key, i, |rs| - 1);
    } else {
      forall q | q in log && !q.scored ensures q.preFix != r.id { if q.preFix == r.id { NamedIsNotLast(log, r, q, i); assert false; } }
    }
  }

  // Two places of one chain hold different records.
  lemma {:induction false} ChainHasNoRepeats(log: seq<Record>, key: Key, i: nat, j: nat)
    requires UniqueIds(log) && i < j < |Of(log, key)|
    ensures Of(log, key)[i] != Of(log, key)[j]
  {
    var rest, last := log[..|log| - 1], log[|log| - 1];
    if last.key == key && j == |Of(rest, key)| {
      OfMembers(rest, key, Of(log, key)[i]);
      var k :| 0 <= k < |rest| && rest[k] == Of(log, key)[i];
      assert log[k].id != log[|log| - 1].id;
    } else {
      assert forall a, b :: 0 <= a < b < |rest| ==> rest[a].id == log[a].id && rest[b].id == log[b].id;
      ChainHasNoRepeats(rest, key, i, j);
    }
  }

  lemma NamedIsNotLast(log: seq<Record>, r: Record, q: Record, i: nat)
    requires ValidLog(log) && r in log && q in log && !q.scored && q.preFix == r.id
    requires i < |Of(log, r.key)| && Of(log, r.key)[i] == r
    ensures i + 1 < |Of(log, r.key)|
  {
    var qs := Of(log, q.key);
    assert LinearChain(qs);
    OfMembers(log, q.key, q);
    var k :| 0 <= k < |qs| && qs[k] == q;
    assert Link(qs, k);
    var p := qs[k - 1];
    OfMembers(log, q.key, p);
    assert p in qs;
    UniqueById(log, p, r);
    if k - 1 < i { ChainHasNoRepeats(log, r.key, k - 1, i); } else if i < k - 1 { ChainHasNoRepeats(log, r.key, i, k - 1); }
  }
}
