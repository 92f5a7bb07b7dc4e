/** The short wire form of source references.  Compacting replaces a full reference to a
    catalogued source revision by its handle; expanding restores it before validation and
    rejects every unknown or mixed handle. */
module SourceReferences {
  import opened Wrappers
  import opened Json

  datatype Entry = Entry(handle: string, sourceId: string, revision: string)

  const FULL_REFERENCE: set<string> := {"source_id", "revision_hash", "locator"}
  const SHORT_REFERENCE: set<string> := {"source_ref", "locator"}

  // Handles S1, S2, ... in the stored order of the frozen sources.
  function Catalog(sources: seq<(string, string)>): seq<Entry> {
    seq(|sources|, i requires 0 <= i < |sources| => Entry("S" + Decimal(i + 1), sources[i].0, sources[i].1))
  }

  ghost predicate DistinctHandles(catalog: seq<Entry>) {
    forall i, j :: 0 <= i < j < |catalog| ==> catalog[i].handle != catalog[j].handle
  }

  lemma CatalogHandlesDistinct(sources: seq<(string, string)>)
    ensures DistinctHandles(Catalog(sources))
  {
    forall i, j | 0 <= i < j < |sources| ensures Catalog(sources)[i].handle != Catalog(sources)[j].handle {
      if Catalog(sources)[i].handle == Catalog(sources)[j].handle {
        assert Decimal(i + 1) == Catalog(sources)[i].handle[1..] == Catalog(sources)[j].handle[1..] == Decimal(j + 1);
        DecimalInjective(i + 1, j + 1);
      }
    }
  }

  function ByRevision(catalog: seq<Entry>, id: Value, revision: Value): (e: Option<Entry>)
    ensures e.Some? ==> e.value in catalog && id == Str(e.value.sourceId) && revision == Str(e.value.revision)
    ensures e.None? ==> forall c :: c in catalog ==> id != Str(c.sourceId) || revision != Str(c.revision)
  {
    if catalog == [] then None
    else if id == Str(catalog[0].sourceId) && revision == Str(catalog[0].revision) then Some(catalog[0])
    else ByRevision(catalog[1..], id, revision)
  }

  function ByHandle(catalog: seq<Entry>, handle: string): (e: Option<Entry>)
    ensures e.Some? ==> e.value in catalog && e.value.handle == handle
    ensures e.None? ==> forall c :: c in catalog ==> c.handle != handle
  {
    if catalog == [] then None
    else if catalog[0].handle == handle then Some(catalog[0])
    else ByHandle(catalog[1..], handle)
  }

  predicate IsFull(m: map<string, Value>) { m.Keys == FULL_REFERENCE && m["locator"].Obj? }

  // A full reference to a catalogued revision; neither direction looks into its locator.
  predicate Matched(m: map<string, Value>, catalog: seq<Entry>) {
    IsFull(m) && ByRevision(catalog, m["source_id"], m["revision_hash"]).Some?
  }

  function Compact(v: Value, catalog: seq<Entry>): Value {
    match v
    case Obj(m) =>
      if Matched(m, catalog)
      then Obj(map["source_ref" := Str(ByRevision(catalog, m["source_id"], m["revision_hash"]).value.handle),
                   "locator" := m["locator"]])
      else Obj(map k | k in m :: Compact(m[k], catalog))
    case Arr(xs) => Arr(seq(|xs|, i requires 0 <= i < |xs| => Compact(xs[i], catalog)))
    case _ => v
  }

  // None stands for the rejection of the structured response.
  function Expand(v: Value, catalog: seq<Entry>): Option<Value> {
    match v
    case Obj(m) =>
      if "source_ref" in m then
        if m.Keys != SHORT_REFERENCE || !m["source_ref"].Str? || !m["locator"].Obj? then None
        else
          match ByHandle(catalog, m["source_ref"].s)
          case None => None
          case Some(e) => Some(Full(e, m["locator"]))
      else if exists k :: k in m && Expand(m[k], catalog).None? then None
      else Some(Obj(map k | k in m :: Expand(m[k], catalog).value))
    case Arr(xs) =>
      if exists i :: 0 <= i < |xs| && Expand(xs[i], catalog).None? then None
      else Some(Arr(seq(|xs|, i requires 0 <= i < |xs| => Expand(xs[i], catalog).value)))
    case _ => Some(v)
  }

  function Full(e: Entry, locator: Value): Value {
    Obj(map["source_id" := Str(e.sourceId), "revision_hash" := Str(e.revision), "locator" := locator])
  }

  // The handle key occurs at most inside locators of matched references.
  predicate Clean(v: Value, catalog: seq<Entry>) {
    match v
    case Obj(m) => Matched(m, catalog) || ("source_ref" !in m && forall k :: k in m ==> Clean(m[k], catalog))
    case Arr(xs) => forall i :: 0 <= i < |xs| ==> Clean(xs[i], catalog)
    case _ => true
  }

  lemma HandleFound(catalog: seq<Entry>, e: Entry)
    requires DistinctHandles(catalog) && e in catalog
    ensures ByHandle(catalog, e.handle) == Some(e)
  {
    var found := ByHandle(catalog, e.handle);
    var i :| 0 <= i < |catalog| && catalog[i] == e;
    var j :| 0 <= j < |catalog| && catalog[j] == found.value;
    assert i == j;
  }

  lemma MatchedRoundTrip(m: map<string, Value>, catalog: seq<Entry>)
    requires DistinctHandles(catalog) && Matched(m, catalog)
    ensures Expand(Compact(Obj(m), catalog), catalog) == Some(Obj(m))
  {
    var e := ByRevision(catalog, m["source_id"], m["revision_hash"]).value;
    HandleFound(catalog, e);
    var short := map["source_ref" := Str(e.handle), "locator" := m["locator"]];
    assert short.Keys == SHORT_REFERENCE;
    assert Full(e, m["locator"]).fields == m;
  }

  /** Expanding what compacting produced restores the value exactly when the value is clean:
      the codec is lossless on every canonical package and on nothing else. */
  lemma {:induction false} RoundTripExactly(v: Value, catalog: seq<Entry>)
    requires DistinctHandles(catalog)
    ensures Expand(Compact(v, catalog), catalog) == Some(v) <==> Clean(v, catalog)
  {
    match v
    case Obj(m) =>
      if Matched(m, catalog) {
        MatchedRoundTrip(m, catalog);
      } else {
        var c := Compact(v, catalog).fields;
        forall k | k in m ensures Expand(c[k], catalog) == Some(m[k]) <==> Clean(m[k], catalog) {
          RoundTripExactly(m[k], catalog);
        }
        if "source_ref" in m {
          HandleNeverSurvives(Compact(v, catalog), catalog);
        } else if forall k :: k in m ==> Clean(m[k], catalog) {
          assert Expand(Obj(c), catalog).value.fields == m;
        } else {
          var k :| k in m && !Clean(m[k], catalog);
          assert k in c;
          if Expand(Obj(c), catalog).Some? { assert Expand(Obj(c), catalog).value.fields[k] != m[k]; }
        }
      }
    case Arr(xs) =>
      var c := Compact(v, catalog).items;
      forall i | 0 <= i < |xs| ensures Expand(c[i], catalog) == Some(xs[i]) <==> Clean(xs[i], catalog) {
        RoundTripExactly(xs[i], catalog);
      }
      if forall i :: 0 <= i < |xs| ==> Clean(xs[i], catalog) {
        assert Expand(Arr(c), catalog).value.items == xs;
      } else {
        var i :| 0 <= i < |xs| && !Clean(xs[i], catalog);
        if Expand(Arr(c), catalog).Some? { assert Expand(Arr(c), catalog).value.items[i] != xs[i]; }
      }
    case _ =>
  }

  lemma HandleNeverSurvives(v: Value, catalog: seq<Entry>)
    requires v.Obj? && "source_ref" in v.fields
    ensures Expand(v, catalog).Some? ==> Expand(v, catalog).value.Obj? && "source_ref" !in Expand(v, catalog).value.fields
  {
  }

  /** Everything the decoder accepts decodes to a clean value. */
  lemma {:induction false} ExpandedIsClean(w: Value, catalog: seq<Entry>)
    requires Expand(w, catalog).Some?
    ensures Clean(Expand(w, catalog).value, catalog)
  {
    var v := Expand(w, catalog).value;
    match w
    case Obj(m) =>
      if "source_ref" in m {
        var e := ByHandle(catalog, m["source_ref"].s).value;
        assert v.fields.Keys == FULL_REFERENCE;
        assert v.fields["source_id"] == Str(e.sourceId) && v.fields["revision_hash"] == Str(e.revision);
        assert Matched(v.fields, catalog);
      } else {
        forall k | k in m ensures Clean(v.fields[k], catalog) { ExpandedIsClean(m[k], catalog); }
      }
    case Arr(xs) =>
      forall i | 0 <= i < |xs| ensures Clean(v.items[i], catalog) { ExpandedIsClean(xs[i], catalog); }
    case _ =>
  }

  // No full reference to a catalogued revision is left outside locators.
  predicate Compacted(v: Value, catalog: seq<Entry>) {
    match v
    case Obj(m) =>
      !Matched(m, catalog) && ((m.Keys == SHORT_REFERENCE && m["source_ref"].Str? && m["locator"].Obj?) || forall k :: k in m ==> Compacted(m[k], catalog))
    case Arr(xs) => forall i :: 0 <= i < |xs| ==> Compacted(xs[i], catalog)
    case _ => true
  }

  lemma CompactKind(v: Value, catalog: seq<Entry>)
    ensures Compact(v, catalog).Str? ==> Compact(v, catalog) == v
    ensures Compact(v, catalog).Obj? ==> v.Obj?
  {}

  // Compacting the parts of an object does not make it a catalogued reference.
  lemma MatchedBefore(m: map<string, Value>, n: map<string, Value>, catalog: seq<Entry>)
    requires n.Keys == m.Keys && forall k :: k in m ==> n[k] == Compact(m[k], catalog)
    ensures Matched(n, catalog) ==> Matched(m, catalog)
  {
    if Matched(n, catalog) {
      assert "source_id" in n && "revision_hash" in n && "locator" in n;
      CompactKind(m["source_id"], catalog);
      CompactKind(m["revision_hash"], catalog);
      CompactKind(m["locator"], catalog);
    }
  }

  /** Compacting replaces every catalogued full reference, however deep. */
  lemma {:induction false} CompactLeavesNone(v: Value, catalog: seq<Entry>)
    ensures Compacted(Compact(v, catalog), catalog)
  {
    var w := Compact(v, catalog);
    match v
    case Obj(m) =>
      if Matched(m, catalog) {
        assert w.fields.Keys == SHORT_REFERENCE;
        assert "source_id" in FULL_REFERENCE && "source_id" !in SHORT_REFERENCE;
      } else {
        forall k | k in m ensures Compacted(w.fields[k], catalog) { CompactLeavesNone(m[k], catalog); }
        MatchedBefore(m, w.fields, catalog);
      }
    case Arr(xs) => forall i | 0 <= i < |xs| ensures Compacted(w.items[i], catalog) { CompactLeavesNone(xs[i], catalog); }
    case _ =>
  }

  /** Decoded packages survive any number of further trips over the wire unchanged. */
  lemma DecodedIsStable(w: Value, sources: seq<(string, string)>)
    requires Expand(w, Catalog(sources)).Some?
    ensures var v := Expand(w, Catalog(sources)).value;
      Expand(Compact(v, Catalog(sources)), Catalog(sources)) == Some(v)
  {
    CatalogHandlesDistinct(sources);
    ExpandedIsClean(w, Catalog(sources));
    RoundTripExactly(Expand(w, Catalog(sources)).value, Catalog(sources));
  }
}
