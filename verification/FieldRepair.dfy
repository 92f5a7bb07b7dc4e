/** The targeted repair of a discovery draft: only fields that every finding names are
    patched, each with the text the proposal holds at the same printed path. */
module FieldRepair {
  import opened Wrappers
  import opened Json
  import opened FieldPaths

  // Any reader of list indices that reads decimal numerals; what else it accepts is left open.
  ghost predicate IntParser(parse: string -> Option<int>) {
    forall i: nat :: parse(Decimal(i)) == Some(i)
  }

  // ---------- navigation by tokens, as the repair does it ----------

  datatype PyKey = PyInt(i: int) | PyName(name: string)

  // List indexing counts from the end for negative indices.
  function Item(items: seq<Value>, i: int): Option<Value> {
    if 0 <= i < |items| then Some(items[i])
    else if -|items| <= i < 0 then Some(items[i + |items|])
    else None
  }

  function Descend(v: Value, part: string, parse: string -> Option<int>): Option<Value> {
    match v
    case Arr(xs) => if parse(part).None? then None else Item(xs, parse(part).value)
    case Obj(m) => if part in m then Some(m[part]) else None
    case _ => None
  }

  function LastKey(place: Value, part: string, parse: string -> Option<int>): Option<PyKey> {
    if !place.Arr? then Some(PyName(part))
    else if parse(part).None? then None
    else Some(PyInt(parse(part).value))
  }

  // Subscripting a text by an integer yields one of its characters.
  function Subscript(v: Value, key: PyKey): Option<Value> {
    match (v, key)
    case (Arr(xs), PyInt(i)) => Item(xs, i)
    case (Obj(m), PyName(name)) => if name in m then Some(m[name]) else None
    case (Str(s), PyInt(i)) =>
      if 0 <= i < |s| then Some(Str([s[i]])) else if -|s| <= i < 0 then Some(Str([s[i + |s|]])) else None
    case _ => None
  }

  // The text a repair takes from the proposal, walking base and proposal in step.
  function NewText(place: Value, offer: Value, parts: seq<string>, parse: string -> Option<int>): Option<Value> {
    if parts == [] then None
    else if |parts| == 1 then
      match LastKey(place, parts[0], parse)
      case None => None
      case Some(key) => if IsText(Subscript(offer, key)) then Subscript(offer, key) else None
    else
      match (Descend(place, parts[0], parse), Descend(offer, parts[0], parse))
      case (Some(o), Some(n)) => NewText(o, n, parts[1..], parse)
      case _ => None
  }

  function Write(place: Value, parts: seq<string>, text: Value, parse: string -> Option<int>): Option<Value> {
    if parts == [] then None
    else
      match place
      case Arr(xs) =>
        if parse(parts[0]).None? || Item(xs, parse(parts[0]).value).None? then None
        else
          var i := parse(parts[0]).value;
          var k := if i < 0 then i + |xs| else i;
          if |parts| == 1 then Some(Arr(xs[k := text]))
          else (
            match Write(xs[k], parts[1..], text, parse)
            case None => None
            case Some(c) => Some(Arr(xs[k := c])))
      case Obj(m) =>
        if |parts| == 1 then Some(Obj(m[parts[0] := text]))
        else if parts[0] !in m then None
        else (
          match Write(m[parts[0]], parts[1..], text, parse)
          case None => None
          case Some(c) => Some(Obj(m[parts[0] := c])))
      case _ => None
  }

  // ---------- shapes and typed writes ----------

  predicate SameShape(a: Value, b: Value) {
    match (a, b)
    case (Str(_), Str(_)) => true
    case (Arr(xs), Arr(ys)) => |xs| == |ys| && forall i :: 0 <= i < |xs| ==> SameShape(xs[i], ys[i])
    case (Obj(m), Obj(n)) => m.Keys == n.Keys && forall k :: k in m ==> SameShape(m[k], n[k])
    case _ => a == b
  }

  lemma {:induction false} ShapeReflexive(v: Value)
    ensures SameShape(v, v)
  {
    match v
    case Arr(xs) => forall i | 0 <= i < |xs| ensures SameShape(xs[i], xs[i]) { ShapeReflexive(xs[i]); }
    case Obj(m) => forall k | k in m ensures SameShape(m[k], m[k]) { ShapeReflexive(m[k]); }
    case _ =>
  }

  lemma {:induction false} ShapeTransitive(a: Value, b: Value, c: Value)
    requires SameShape(a, b) && SameShape(b, c)
    ensures SameShape(a, c)
  {
    match a
    case Arr(xs) => forall i | 0 <= i < |xs| ensures SameShape(xs[i], c.items[i]) { ShapeTransitive(xs[i], b.items[i], c.items[i]); }
    case Obj(m) => forall k | k in m ensures SameShape(m[k], c.fields[k]) { ShapeTransitive(m[k], b.fields[k], c.fields[k]); }
    case _ =>
  }

  lemma {:induction false} ShapeAt(a: Value, b: Value, path: seq<Segment>)
    requires SameShape(a, b) && At(a, path).Some?
    ensures At(b, path).Some? && SameShape(At(a, path).value, At(b, path).value)
    decreases path
  {
    if path != [] { ShapeAt(Child(a, path[0]).value, Child(b, path[0]).value, path[1..]); }
  }

  lemma {:induction false} AtConcat(v: Value, p: seq<Segment>, q: seq<Segment>)
    requires At(v, p).Some?
    ensures At(v, p + q) == At(At(v, p).value, q)
    decreases p
  {
    if p == [] {
      assert p + q == q;
    } else {
      assert (p + q)[1..] == p[1..] + q;
      AtConcat(Child(v, p[0]).value, p[1..], q);
    }
  }

  /** A value is determined by its shape and the texts at its leaves. */
  lemma {:induction false} ShapeAndTexts(a: Value, b: Value)
    requires SameShape(a, b)
    requires forall p :: IsText(At(a, p)) ==> At(b, p) == At(a, p)
    ensures a == b
  {
    match a
    case Str(_) => assert At(b, []) == At(a, []);
    case Arr(xs) =>
      forall i | 0 <= i < |xs| ensures xs[i] == b.items[i] {
        forall p | IsText(At(xs[i], p)) ensures At(b.items[i], p) == At(xs[i], p) {
          var q := [Index(i)] + p;
          assert q[1..] == p && At(a, q) == At(xs[i], p) && At(b, q) == At(b.items[i], p);
        }
        ShapeAndTexts(xs[i], b.items[i]);
      }
    case Obj(m) =>
      forall k | k in m ensures m[k] == b.fields[k] {
        forall p | IsText(At(m[k], p)) ensures At(b.fields[k], p) == At(m[k], p) {
          var q := [Key(k)] + p;
          assert q[1..] == p && At(a, q) == At(m[k], p) && At(b, q) == At(b.fields[k], p);
        }
        ShapeAndTexts(m[k], b.fields[k]);
      }
    case _ =>
  }

  function SetText(v: Value, path: seq<Segment>, text: Value): Value
    requires At(v, path).Some?
    decreases path
  {
    if path == [] then text
    else
      match path[0]
      case Key(name) => Obj(v.fields[name := SetText(v.fields[name], path[1..], text)])
      case Index(i) => Arr(v.items[i := SetText(v.items[i], path[1..], text)])
  }

  lemma {:induction false} SetTextShape(v: Value, path: seq<Segment>, text: Value)
    requires IsText(At(v, path)) && text.Str?
    ensures SameShape(v, SetText(v, path, text))
    decreases path
  {
    if path != [] {
      SetTextShape(Child(v, path[0]).value, path[1..], text);
      match v
      case Arr(xs) => forall i | 0 <= i < |xs| ensures SameShape(xs[i], xs[i]) { ShapeReflexive(xs[i]); }
      case Obj(m) => forall k | k in m ensures SameShape(m[k], m[k]) { ShapeReflexive(m[k]); }
    }
  }

  /** A typed write changes the text at its own path and at no other. */
  lemma {:induction false} SetTextAt(v: Value, p: seq<Segment>, text: Value, q: seq<Segment>)
    requires IsText(At(v, p)) && IsText(At(v, q))
    ensures At(SetText(v, p, text), q) == if p == q then Some(text) else At(v, q)
    decreases p
  {
    if p != [] && q != [] && p[0] == q[0] {
      SetTextAt(Child(v, p[0]).value, p[1..], text, q[1..]);
      assert p == [p[0]] + p[1..] && q == [q[0]] + q[1..];
    }
  }

  // ---------- tokens agree with typed paths ----------

  lemma {:induction false} WriteIsSetText(v: Value, path: seq<Segment>, text: Value, parse: string -> Option<int>)
    requires IntParser(parse) && IsText(At(v, path)) && path != []
    ensures Write(v, TokensOf(path), text, parse) == Some(SetText(v, path, text))
    decreases path
  {
    assert TokensOf(path)[1..] == TokensOf(path[1..]) && |TokensOf(path)| == 1 + |TokensOf(path[1..])|;
    if |path| > 1 {
      WriteIsSetText(Child(v, path[0]).value, path[1..], text, parse);
    } else {
      assert path[1..] == [];
    }
  }

  lemma {:induction false} NewTextByShape(a: Value, b: Value, offer: Value, parts: seq<string>, parse: string -> Option<int>)
    requires SameShape(a, b)
    ensures NewText(a, offer, parts, parse) == NewText(b, offer, parts, parse)
    decreases parts
  {
    if |parts| > 1 {
      match (Descend(a, parts[0], parse), Descend(b, parts[0], parse), Descend(offer, parts[0], parse))
      case (Some(o), Some(o'), Some(n)) => NewTextByShape(o, o', n, parts[1..], parse);
      case _ =>
    }
  }

  lemma {:induction false} NewTextAt(base: Value, offer: Value, path: seq<Segment>, parse: string -> Option<int>)
    requires IntParser(parse) && At(base, path).Some? && At(offer, path).Some? && path != []
    ensures NewText(base, offer, TokensOf(path), parse) == if At(offer, path).value.Str? then At(offer, path) else None
    decreases path
  {
    assert TokensOf(path)[1..] == TokensOf(path[1..]) && |TokensOf(path)| == 1 + |TokensOf(path[1..])|;
    if |path| > 1 {
      NewTextAt(Child(base, path[0]).value, Child(offer, path[0]).value, path[1..], parse);
    } else {
      assert path[1..] == [];
    }
  }

  /** An accepted field text is the proposal's own value at that path exactly when the proposal
      has such a place at all; otherwise it was read through a place of another kind. */
  lemma AcceptedTextExactly(base: Value, offer: Value, path: seq<Segment>, parse: string -> Option<int>)
    requires IntParser(parse) && At(base, path).Some? && path != []
    requires NewText(base, offer, TokensOf(path), parse).Some?
    ensures NewText(base, offer, TokensOf(path), parse) == At(offer, path) <==> At(offer, path).Some?
  {
    if At(offer, path).Some? { NewTextAt(base, offer, path, parse); }
  }

  lemma DescendToChild(v: Value, seg: Segment, parse: string -> Option<int>)
    requires IntParser(parse) && Child(v, seg).Some?
    ensures Descend(v, Token(seg), parse) == Child(v, seg)
  {}

  lemma NewTextStep(base: Value, offer: Value, part: string, parts: seq<string>, parse: string -> Option<int>)
    requires parts != [] && Descend(base, part, parse).Some? && Descend(offer, part, parse).Some?
    ensures NewText(base, offer, [part] + parts, parse)
      == NewText(Descend(base, part, parse).value, Descend(offer, part, parse).value, parts, parse)
  {
    assert ([part] + parts)[1..] == parts;
  }

  // A place the base and the proposal share is reached in step.
  lemma {:induction false} NewTextUnder(base: Value, offer: Value, prefix: seq<Segment>, parts: seq<string>, parse: string -> Option<int>)
    requires IntParser(parse) && At(base, prefix).Some? && At(offer, prefix).Some? && parts != []
    ensures NewText(base, offer, TokensOf(prefix) + parts, parse) == NewText(At(base, prefix).value, At(offer, prefix).value, parts, parse)
    decreases prefix
  {
    if prefix == [] {
      assert TokensOf(prefix) + parts == parts;
    } else {
      var rest := TokensOf(prefix[1..]) + parts;
      assert TokensOf(prefix) + parts == [Token(prefix[0])] + rest;
      DescendToChild(base, prefix[0], parse);
      DescendToChild(offer, prefix[0], parse);
      NewTextStep(base, offer, Token(prefix[0]), rest, parse);
      NewTextUnder(Child(base, prefix[0]).value, Child(offer, prefix[0]).value, prefix[1..], parts, parse);
    }
  }

  lemma {:induction false} WriteUnder(base: Value, prefix: seq<Segment>, parts: seq<string>, text: Value, w: Value, parse: string -> Option<int>)
    requires IntParser(parse) && At(base, prefix).Some? && parts != [] && Write(At(base, prefix).value, parts, text, parse) == Some(w)
    ensures Write(base, TokensOf(prefix) + parts, text, parse) == Some(SetText(base, prefix, w))
    decreases prefix
  {
    if prefix == [] {
      assert TokensOf(prefix) + parts == parts;
    } else {
      assert (TokensOf(prefix) + parts)[1..] == TokensOf(prefix[1..]) + parts;
      WriteUnder(Child(base, prefix[0]).value, prefix[1..], parts, text, w, parse);
    }
  }

  lemma {:induction false} TokensOfConcat(p: seq<Segment>, q: seq<Segment>)
    ensures TokensOf(p + q) == TokensOf(p) + TokensOf(q)
  {
    if p == [] {
      assert p + q == q;
    } else {
      assert (p + q)[1..] == p[1..] + q;
      TokensOfConcat(p[1..], q);
    }
  }

  /** Such a misreading is possible wherever a list of texts stands: a proposal that answers it
      with a text is accepted, and single characters of that text become the list's entries. */
  lemma TextReadAsList(base: Value, offer: Value, prefix: seq<Segment>, parse: string -> Option<int>)
    requires IntParser(parse) && At(base, prefix).Some? && At(base, prefix).value.Arr? && At(base, prefix).value.items != []
    requires IsText(At(offer, prefix)) && At(offer, prefix).value.s != ""
    ensures At(offer, prefix + [Index(0)]).None?
    ensures NewText(base, offer, TokensOf(prefix + [Index(0)]), parse) == Some(Str([At(offer, prefix).value.s[0]]))
  {
    var parts := [Decimal(0)];
    assert [Index(0)][1..] == [] && TokensOf([Index(0)]) == parts;
    assert parse(Decimal(0)) == Some(0);
    TokensOfConcat(prefix, [Index(0)]);
    NewTextUnder(base, offer, prefix, parts, parse);
    AtConcat(offer, prefix, [Index(0)]);
  }

  // ---------- the repair ----------

  // What a repair of the given fields is: the base's shape, the proposal's texts at the
  // patched assertions, the base's texts everywhere else.
  ghost predicate IsRepair(base: Value, offer: Value, fields: set<string>, r: Value, parse: string -> Option<int>) {
    && SameShape(base, r)
    && forall p :: IsText(At(base, p)) ==> At(r, p) == RepairedText(base, offer, fields, p, parse)
  }

  function RepairedText(base: Value, offer: Value, fields: set<string>, p: seq<Segment>, parse: string -> Option<int>): Option<Value> {
    if Print(p) in fields && Unskipped(p) then NewText(base, offer, TokensOf(p), parse) else At(base, p)
  }

  /** A repair is unique, so the order and repetition of targets cannot matter. */
  lemma RepairUnique(base: Value, offer: Value, fields: set<string>, r: Value, s: Value, parse: string -> Option<int>)
    requires IsRepair(base, offer, fields, r, parse) && IsRepair(base, offer, fields, s, parse)
    ensures r == s
  {
    ShapeSymmetric(base, r);
    ShapeTransitive(r, base, s);
    forall p | IsText(At(r, p)) ensures At(s, p) == At(r, p) {
      ShapeAt(r, base, p);
      assert IsText(At(base, p));
    }
    ShapeAndTexts(r, s);
  }

  lemma {:induction false} ShapeSymmetric(a: Value, b: Value)
    requires SameShape(a, b)
    ensures SameShape(b, a)
  {
    match a
    case Arr(xs) => forall i | 0 <= i < |xs| ensures SameShape(b.items[i], xs[i]) { ShapeSymmetric(xs[i], b.items[i]); }
    case Obj(m) => forall k | k in m ensures SameShape(b.fields[k], m[k]) { ShapeSymmetric(m[k], b.fields[k]); }
    case _ =>
  }

  /** Keys, schema versions and evidence references, with everything below them, are never
      changed by a repair. */
  lemma BookkeepingUntouched(
    base: Value, offer: Value, fields: set<string>, r: Value, q: seq<Segment>, parse: string -> Option<int>)
    requires IsRepair(base, offer, fields, r, parse) && At(base, q).Some? && !Unskipped(q)
    ensures At(r, q) == At(base, q)
  {
    ShapeAt(base, r, q);
    var b, s := At(base, q).value, At(r, q).value;
    forall p | IsText(At(b, p)) ensures At(s, p) == At(b, p) {
      AtConcat(base, q, p);
      AtConcat(r, q, p);
      var k :| 0 <= k < |q| && q[k].Key? && q[k].name in SKIPPED;
      assert (q + p)[k] == q[k] && !Unskipped(q + p);
    }
    ShapeAndTexts(b, s);
  }

  // One target: nothing is written unless both sides can be walked and the new value is a text.
  function PatchOne(place: Value, offer: Value, field: string, parse: string -> Option<int>): Option<Value> {
    var parts := Tokens(field);
    match NewText(place, offer, parts, parse)
    case None => None
    case Some(text) => Write(place, parts, text, parse)
  }

  // Every assertion that prints this field is reached by clean keys.
  ghost predicate CleanAt(base: Value, field: string) {
    forall p :: IsAssertion(base, p) && Print(p) == field ==> CleanPath(p)
  }

  lemma TypedPatch(base: Value, offer: Value, fields: set<string>, r: Value, path: seq<Segment>, text: Value, parse: string -> Option<int>)
    requires CleanAt(base, Print(path)) && IsRepair(base, offer, fields, r, parse) && IsAssertion(base, path)
    requires IsText(At(r, path)) && text.Str? && NewText(base, offer, TokensOf(path), parse) == Some(text)
    ensures IsRepair(base, offer, fields + {Print(path)}, SetText(r, path, text), parse)
  {
    var r' := SetText(r, path, text);
    SetTextShape(r, path, text);
    ShapeTransitive(base, r, r');
    forall q | IsText(At(base, q)) ensures At(r', q) == RepairedText(base, offer, fields + {Print(path)}, q, parse) {
      ShapeAt(base, r, q);
      SetTextAt(r, path, text, q);
      if Print(q) == Print(path) && Unskipped(q) {
        assert IsAssertion(base, q);
        PrintedPathsAreUnique(base, path, q);
      }
    }
  }

  lemma PatchOneStep(base: Value, offer: Value, fields: set<string>, r: Value, field: string, parse: string -> Option<int>)
    requires IntParser(parse) && base.Obj? && CleanAt(base, field)
    requires IsRepair(base, offer, fields, r, parse) && field in Walk(base, "")
    ensures PatchOne(r, offer, field, parse).Some? <==> NewText(base, offer, Tokens(field), parse).Some?
    ensures PatchOne(r, offer, field, parse).Some? ==>
      IsRepair(base, offer, fields + {field}, PatchOne(r, offer, field, parse).value, parse)
  {
    var path := WalkSound(base, "", field);
    PathRoundTrip(path);
    ShapeAt(base, r, path);
    NewTextByShape(base, r, offer, Tokens(field), parse);
    if NewText(base, offer, Tokens(field), parse).Some? {
      var text := NewText(base, offer, Tokens(field), parse).value;
      NewTextIsText(base, offer, Tokens(field), parse);
      WriteIsSetText(r, path, text, parse);
      TypedPatch(base, offer, fields, r, path, text, parse);
    }
  }

  lemma {:induction false} NewTextIsText(place: Value, offer: Value, parts: seq<string>, parse: string -> Option<int>)
    ensures NewText(place, offer, parts, parse).Some? ==> NewText(place, offer, parts, parse).value.Str?
    decreases parts
  {
    if |parts| > 1 {
      match (Descend(place, parts[0], parse), Descend(offer, parts[0], parse))
      case (Some(o), Some(n)) => NewTextIsText(o, n, parts[1..], parse);
      case _ =>
    }
  }

  function Fields(targets: seq<string>): set<string> { set t | t in targets }

  // A draft object with targets taken from its own walk.
  ghost predicate FromWalk(base: Value, targets: seq<string>) {
    base.Obj? && forall t :: t in targets ==> t in Walk(base, "")
  }

  // The keys on the paths of the targets survive the path syntax.
  ghost predicate CleanTargets(base: Value, targets: seq<string>) { forall t :: t in targets ==> CleanAt(base, t) }

  // All targets one after the other; the first that cannot be patched fails the repair.
  function PatchAll(base: Value, offer: Value, targets: seq<string>, parse: string -> Option<int>): Option<Value> {
    if targets == [] then Some(base)
    else match PatchAll(base, offer, targets[..|targets| - 1], parse)
      case None => None
      case Some(r) => PatchOne(r, offer, targets[|targets| - 1], parse)
  }

  lemma {:induction false} PatchAllStuck(base: Value, offer: Value, targets: seq<string>, n: nat, parse: string -> Option<int>)
    requires n <= |targets| && PatchAll(base, offer, targets[..n], parse).None?
    ensures PatchAll(base, offer, targets, parse).None?
    decreases |targets| - n
  {
    if n < |targets| {
      assert targets[..n + 1][..n] == targets[..n];
      PatchAllStuck(base, offer, targets, n + 1, parse);
    } else {
      assert targets[..n] == targets;
    }
  }

  lemma {:induction false} PatchAllKeepsObjects(base: Value, offer: Value, targets: seq<string>, parse: string -> Option<int>)
    requires base.Obj? && PatchAll(base, offer, targets, parse).Some?
    ensures PatchAll(base, offer, targets, parse).value.Obj?
  {
    if targets != [] { PatchAllKeepsObjects(base, offer, targets[..|targets| - 1], parse); }
  }

  // The proposal holds a text for every assertion that prints a target.
  ghost predicate Offered(base: Value, offer: Value, targets: seq<string>, parse: string -> Option<int>) {
    forall p :: IsAssertion(base, p) && Print(p) in targets ==> NewText(base, offer, TokensOf(p), parse).Some?
  }

  predicate AllOffered(base: Value, offer: Value, targets: seq<string>, parse: string -> Option<int>) {
    forall t :: t in targets ==> NewText(base, offer, Tokens(t), parse).Some?
  }

  lemma OfferedByTokens(base: Value, offer: Value, targets: seq<string>, parse: string -> Option<int>)
    requires FromWalk(base, targets) && CleanTargets(base, targets)
    ensures AllOffered(base, offer, targets, parse) <==> Offered(base, offer, targets, parse)
  {
    forall t | t in targets ensures exists p :: IsAssertion(base, p) && Print(p) == t && Tokens(t) == TokensOf(p) {
      var p := WalkSound(base, "", t);
      assert CleanAt(base, t) && Print(p) == t;
      PathRoundTrip(p);
    }
    forall p | IsAssertion(base, p) && Print(p) in targets ensures Tokens(Print(p)) == TokensOf(p) {
      assert CleanAt(base, Print(p));
      PathRoundTrip(p);
    }
  }

  lemma {:induction false} PatchAllIsRepair(base: Value, offer: Value, targets: seq<string>, parse: string -> Option<int>)
    requires IntParser(parse) && FromWalk(base, targets) && CleanTargets(base, targets)
    ensures PatchAll(base, offer, targets, parse).Some? <==> AllOffered(base, offer, targets, parse)
    ensures PatchAll(base, offer, targets, parse).Some? ==>
      IsRepair(base, offer, Fields(targets), PatchAll(base, offer, targets, parse).value, parse)
  {
    if targets == [] {
      ShapeReflexive(base);
    } else {
      var rest, last := targets[..|targets| - 1], targets[|targets| - 1];
      assert targets == rest + [last] && Fields(targets) == Fields(rest) + {last};
      PatchAllIsRepair(base, offer, rest, parse);
      if PatchAll(base, offer, rest, parse).Some? {
        PatchOneStep(base, offer, Fields(rest), PatchAll(base, offer, rest, parse).value, last, parse);
      }
    }
  }

  // The repair succeeds exactly when the proposal holds every text, and is then the one repair.
  ghost predicate RepairsRightly(base: Value, offer: Value, targets: seq<string>, parse: string -> Option<int>) {
    && (PatchAll(base, offer, targets, parse).Some? <==> Offered(base, offer, targets, parse))
    && (PatchAll(base, offer, targets, parse).Some? ==>
          IsRepair(base, offer, Fields(targets), PatchAll(base, offer, targets, parse).value, parse))
  }

  // A write along clean tokens, of a text read at the same place, spares every place behind an
  // unclean key.
  lemma {:induction false} PatchSparesUnclean(
    place: Value, offer: Value, parts: seq<string>, text: Value, p: seq<Segment>, parse: string -> Option<int>)
    requires SameShape(place, offer) && (forall t :: t in parts ==> PlainToken(t)) && !CleanPath(p) && At(place, p).Some?
    requires NewText(place, offer, parts, parse) == Some(text) && Write(place, parts, text, parse).Some?
    ensures At(Write(place, parts, text, parse).value, p) == At(place, p)
    decreases parts
  {
    assert parts[0] in parts && p != [];
    match place
    case Arr(xs) =>
      var i := parse(parts[0]).value;
      var k := if i < 0 then i + |xs| else i;
      if p[0] == Index(k) && |parts| > 1 { PatchSparesUnclean(xs[k], offer.items[k], parts[1..], text, p[1..], parse); }
    case Obj(m) =>
      if p[0] == Key(parts[0]) && |parts| > 1 {
        PatchSparesUnclean(m[parts[0]], offer.fields[parts[0]], parts[1..], text, p[1..], parse);
      }
  }

  lemma {:induction false} WriteKeepsShape(place: Value, offer: Value, parts: seq<string>, text: Value, parse: string -> Option<int>)
    requires SameShape(place, offer) && NewText(place, offer, parts, parse) == Some(text) && Write(place, parts, text, parse).Some?
    ensures SameShape(place, Write(place, parts, text, parse).value)
    decreases parts
  {
    ShapeReflexive(place);
    if |parts| > 1 {
      WriteKeepsShape(Descend(place, parts[0], parse).value, Descend(offer, parts[0], parse).value, parts[1..], text, parse);
    }
  }

  lemma {:induction false} PatchAllSparesUnclean(
    base: Value, offer: Value, targets: seq<string>, p: seq<Segment>, parse: string -> Option<int>)
    requires SameShape(base, offer) && !CleanPath(p) && At(base, p).Some? && PatchAll(base, offer, targets, parse).Some?
    ensures var r := PatchAll(base, offer, targets, parse).value; SameShape(base, r) && At(r, p) == At(base, p)
  {
    if targets == [] {
      ShapeReflexive(base);
    } else {
      var rest, last := targets[..|targets| - 1], targets[|targets| - 1];
      PatchAllSparesUnclean(base, offer, rest, p, parse);
      var r := PatchAll(base, offer, rest, parse).value;
      ShapeSymmetric(base, r);
      ShapeTransitive(r, base, offer);
      TokensArePlain(last, "");
      WriteKeepsShape(r, offer, Tokens(last), NewText(r, offer, Tokens(last), parse).value, parse);
      PatchSparesUnclean(r, offer, Tokens(last), NewText(r, offer, Tokens(last), parse).value, p, parse);
      ShapeTransitive(base, r, PatchAll(base, offer, targets, parse).value);
    }
  }

  // Behind an unclean key the repair never does what it should: this proposal changes one text.
  lemma UncleanGoesWrong(base: Value, targets: seq<string>, p: seq<Segment>, parse: string -> Option<int>) returns (offer: Value)
    requires IntParser(parse) && base.Obj? && IsAssertion(base, p) && Print(p) in targets && !CleanPath(p)
    ensures !RepairsRightly(base, offer, targets, parse)
  {
    var was := At(base, p).value.s;
    var text := Str(was + "x");
    assert |was + "x"| != |was|;
    offer := SetText(base, p, text);
    SetTextShape(base, p, text);
    SetTextAt(base, p, text, p);
    forall q | IsAssertion(base, q) && Print(q) in targets ensures NewText(base, offer, TokensOf(q), parse) == At(offer, q) && IsText(At(offer, q)) {
      ShapeAt(base, offer, q);
      NewTextAt(base, offer, q, parse);
    }
    if PatchAll(base, offer, targets, parse).Some? {
      PatchAllSparesUnclean(base, offer, targets, p, parse);
      assert RepairedText(base, offer, Fields(targets), p, parse) == Some(text);
      assert IsText(At(base, p));
    }
  }

  /** The repair is right for every proposal exactly if the keys on the paths of its targets are
      clean: none is empty or holds a path delimiter.  It then succeeds exactly when the proposal
      holds a text for every target, and is the one repair of the target set. */
  lemma RepairExactly(base: Value, targets: seq<string>, parse: string -> Option<int>)
    requires IntParser(parse) && FromWalk(base, targets)
    ensures (forall offer :: RepairsRightly(base, offer, targets, parse)) <==> CleanTargets(base, targets)
  {
    if CleanTargets(base, targets) {
      forall offer ensures RepairsRightly(base, offer, targets, parse) {
        PatchAllIsRepair(base, offer, targets, parse);
        OfferedByTokens(base, offer, targets, parse);
      }
    } else {
      var t :| t in targets && !CleanAt(base, t);
      var p :| IsAssertion(base, p) && Print(p) == t && !CleanPath(p);
      var offer := UncleanGoesWrong(base, targets, p, parse);
    }
  }

  lemma {:induction false} PrintConcat(prefix: string, p: seq<Segment>, q: seq<Segment>)
    ensures PrintFrom(prefix, p + q) == PrintFrom(PrintFrom(prefix, p), q)
    decreases p
  {
    if p == [] {
      assert p + q == q;
    } else {
      assert (p + q)[1..] == p[1..] + q;
      PrintConcat(Extend(prefix, p[0]), p[1..], q);
    }
  }

  // A key with a dot in it prints the path of two keys.
  lemma DottedPrintsAlike(prefix: seq<Segment>, a: string, b: string)
    requires a != ""
    ensures Print(prefix + [Key(a + "." + b)]) == Print(prefix + [Key(a), Key(b)])
  {
    var one, two := [Key(a + "." + b)], [Key(a), Key(b)];
    var p := Print(prefix);
    PrintConcat("", prefix, one);
    PrintConcat("", prefix, two);
    assert one[1..] == [] && two[1..] == [Key(b)] && [Key(b)][1..] == [];
    assert PrintFrom(Extend(p, Key(a)), [Key(b)]) == PrintFrom(Extend(Extend(p, Key(a)), Key(b)), [Key(b)][1..]);
    assert PrintFrom(p, two) == PrintFrom(Extend(p, two[0]), two[1..]);
    assert p + "." + (a + "." + b) == p + "." + a + "." + b;
  }

  /** How it goes wrong, anywhere in a draft: a key made of two names around a dot prints a path
      that the repair walks to another place, where it writes a field the draft may never have had. */
  lemma DottedKeyGoesAstray(base: Value, offer: Value, prefix: seq<Segment>, a: string, b: string, parse: string -> Option<int>)
    requires IntParser(parse) && PlainToken(a) && PlainToken(b) && CleanPath(prefix)
    requires At(base, prefix).Some? && At(base, prefix + [Key(a)]).Some? && At(base, prefix + [Key(a)]).value.Obj?
    requires IsText(At(offer, prefix + [Key(a), Key(b)]))
    ensures var place := At(base, prefix).value;
      && place.Obj? && a in place.fields && place.fields[a].Obj?
      && PatchOne(base, offer, Print(prefix + [Key(a + "." + b)]), parse) == Some(SetText(base, prefix,
           Obj(place.fields[a := Obj(place.fields[a].fields[b := At(offer, prefix + [Key(a), Key(b)]).value])])))
  {
    var field, parts := Print(prefix + [Key(a + "." + b)]), [a, b];
    DottedTokens(prefix, a, b);
    AtConcat(base, prefix, [Key(a)]);
    assert [Key(a)][1..] == [];
    SharedPrefix(offer, prefix, [Key(a), Key(b)]);
    var place, from, text := At(base, prefix).value, At(offer, prefix).value, At(offer, prefix + [Key(a), Key(b)]).value;
    assert At(place, [Key(a)]) == At(Child(place, Key(a)).value, []);
    TwoSteps(place, from, a, b, text, parse);
    NewTextUnder(base, offer, prefix, parts, parse);
    WriteUnder(base, prefix, parts, text, Obj(place.fields[a := Obj(place.fields[a].fields[b := text])]), parse);
    assert NewText(base, offer, Tokens(field), parse) == Some(text);
  }

  lemma DottedTokens(prefix: seq<Segment>, a: string, b: string)
    requires PlainToken(a) && PlainToken(b) && CleanPath(prefix)
    ensures Tokens(Print(prefix + [Key(a + "." + b)])) == TokensOf(prefix) + [a, b]
  {
    DottedPrintsAlike(prefix, a, b);
    PathRoundTrip(prefix + [Key(a), Key(b)]);
    TokensOfConcat(prefix, [Key(a), Key(b)]);
    assert [Key(a), Key(b)][1..] == [Key(b)] && [Key(b)][1..] == [];
    assert TokensOf([Key(b)]) == [b] + TokensOf([Key(b)][1..]);
    assert TokensOf([Key(a), Key(b)]) == [a] + TokensOf([Key(a), Key(b)][1..]);
    assert [a] + [b] == [a, b];
  }

  lemma {:induction false} SetTextThere(v: Value, p: seq<Segment>, w: Value, q: seq<Segment>)
    requires At(v, p).Some?
    ensures At(SetText(v, p, w), p + q) == At(w, q)
    decreases p
  {
    if p == [] {
      assert p + q == q;
    } else {
      assert (p + q)[1..] == p[1..] + q;
      SetTextThere(Child(v, p[0]).value, p[1..], w, q);
    }
  }

  lemma {:induction false} SharedPrefix(v: Value, p: seq<Segment>, q: seq<Segment>)
    requires At(v, p + q).Some?
    ensures At(v, p).Some? && At(v, p + q) == At(At(v, p).value, q)
    decreases p
  {
    if p == [] {
      assert p + q == q;
    } else {
      assert (p + q)[1..] == p[1..] + q;
      SharedPrefix(Child(v, p[0]).value, p[1..], q);
    }
  }

  lemma TwoSteps(place: Value, offer: Value, a: string, b: string, text: Value, parse: string -> Option<int>)
    requires place.Obj? && a in place.fields && place.fields[a].Obj? && text.Str?
    requires At(offer, [Key(a), Key(b)]) == Some(text)
    ensures NewText(place, offer, [a, b], parse) == Some(text)
    ensures Write(place, [a, b], text, parse) == Some(Obj(place.fields[a := Obj(place.fields[a].fields[b := text])]))
  {
    assert [Key(a), Key(b)][1..] == [Key(b)] && [Key(b)][1..] == [];
    assert [a, b][1..] == [b];
    var from := Child(offer, Key(a));
    assert At(offer, [Key(a), Key(b)]) == At(from.value, [Key(b)]);
    assert At(from.value, [Key(b)]) == At(Child(from.value, Key(b)).value, []);
    assert NewText(place.fields[a], from.value, [b], parse) == Some(text);
    assert Write(place.fields[a], [b], text, parse) == Some(Obj(place.fields[a].fields[b := text]));
  }

  /** Targets are walked one by one on a copy; the base itself is never written. */
  method ApplyDiscoveryFieldRepair(base: Value, offer: Value, targets: seq<string>, parse: string -> Option<int>)
    returns (result: Result<Value, string>)
    ensures result.Ok? ==> PatchAll(base, offer, targets, parse) == Some(result.value)
    ensures result.Err? ==> PatchAll(base, offer, targets, parse) == None && result.error in targets
  {
    var revised := base;
    for i := 0 to |targets|
      invariant PatchAll(base, offer, targets[..i], parse) == Some(revised)
    {
      assert targets[..i + 1][..i] == targets[..i] && targets[..i + 1][i] == targets[i];
      var patched := PatchOne(revised, offer, targets[i], parse);
      if patched.None? {
        PatchAllStuck(base, offer, targets, i + 1, parse);
        return Err(targets[i]);
      }
      revised := patched.value;
    }
    assert targets[..|targets|] == targets;
    return Ok(revised);
  }

  // ---------- choosing the targets ----------

  // The path stands in the message as a whole, not inside a longer path or word.
  predicate Mentions(message: string, field: string, word: char -> bool) {
    exists i :: 0 <= i <= |message| - |field| && MentionsAt(message, field, i, word)
  }

  predicate MentionsAt(message: string, field: string, i: nat, word: char -> bool)
    requires i <= |message| - |field|
  {
    && message[i..i + |field|] == field
    && (i > 0 ==> !word(message[i - 1]) && message[i - 1] != '.')
    && (i + |field| < |message| ==> !word(message[i + |field|]) && message[i + |field|] != '.')
  }

  // The assertions one finding names; a finding that is no object names none.
  function Matched(fields: set<string>, finding: Option<string>, word: char -> bool): set<string> {
    if finding.None? then {} else set f | f in fields && Mentions(finding.value, f, word)
  }

  // All fields named, if every finding names one; otherwise none.
  ghost function Chosen(fields: set<string>, findings: seq<Option<string>>, word: char -> bool): set<string> {
    if exists k :: 0 <= k < |findings| && Matched(fields, findings[k], word) == {} then {}
    else set f | f in fields && exists k :: 0 <= k < |findings| && f in Matched(fields, findings[k], word)
  }

  /** Every finding must name at least one of the draft's assertions; otherwise nothing is
      targeted and the whole draft is up for revision. */
  method RepairFieldTargets(fields: set<string>, findings: seq<Option<string>>, word: char -> bool) returns (targets: set<string>)
    ensures targets == Chosen(fields, findings, word)
  {
    targets := {};
    for i := 0 to |findings|
      invariant forall k :: 0 <= k < i ==> Matched(fields, findings[k], word) != {}
      invariant forall f :: f in targets <==> exists k :: 0 <= k < i && f in Matched(fields, findings[k], word)
    {
      var matched := Matched(fields, findings[i], word);
      if matched == {} { return {}; }
      targets := targets + matched;
    }
    assert forall f, k :: 0 <= k < |findings| && f in Matched(fields, findings[k], word) ==> f in fields;
  }
}
