/** Field paths of a discovery draft: how the verifier's walk prints them, and how the repair
    splits them again. */
module FieldPaths {
  import opened Wrappers
  import opened Json

  datatype Segment = Key(name: string) | Index(i: nat)

  const SKIPPED: set<string> := {"evidence_refs", "schema_version", "key"}

  predicate Delimiter(c: char) { c == '.' || c == '[' || c == ']' }

  // The printed path after one more segment.
  function Extend(prefix: string, seg: Segment): string {
    match seg
    case Key(name) => if prefix != "" then prefix + "." + name else name
    case Index(i) => prefix + "[" + Decimal(i) + "]"
  }

  function PrintFrom(prefix: string, path: seq<Segment>): string
    decreases path
  {
    if path == [] then prefix else PrintFrom(Extend(prefix, path[0]), path[1..])
  }

  function Print(path: seq<Segment>): string { PrintFrom("", path) }

  // The maximal runs of non-delimiters, with the run in progress carried along.
  function TokensFrom(s: string, run: string): seq<string> {
    if s == "" then (if run == "" then [] else [run])
    else if Delimiter(s[0]) then (if run == "" then [] else [run]) + TokensFrom(s[1..], "")
    else TokensFrom(s[1..], run + [s[0]])
  }

  function Tokens(s: string): seq<string> { TokensFrom(s, "") }

  function Token(seg: Segment): string {
    match seg
    case Key(name) => name
    case Index(i) => Decimal(i)
  }

  function TokensOf(path: seq<Segment>): seq<string> {
    if path == [] then [] else [Token(path[0])] + TokensOf(path[1..])
  }

  predicate CleanKey(name: string) { name != "" && forall c :: c in name ==> !Delimiter(c) }

  predicate CleanPath(path: seq<Segment>) {
    forall k :: 0 <= k < |path| && path[k].Key? ==> CleanKey(path[k].name)
  }

  lemma {:induction false} SplitAtDelimiter(a: string, d: char, b: string, run: string)
    requires Delimiter(d)
    ensures TokensFrom(a + [d] + b, run) == TokensFrom(a, run) + TokensFrom(b, "")
  {
    if a == "" {
      assert a + [d] + b == [d] + b;
    } else {
      assert (a + [d] + b)[1..] == a[1..] + [d] + b;
      if Delimiter(a[0]) {
        SplitAtDelimiter(a[1..], d, b, "");
      } else {
        SplitAtDelimiter(a[1..], d, b, run + [a[0]]);
      }
    }
  }

  lemma {:induction false} OneToken(t: string, run: string)
    requires (forall c :: c in t ==> !Delimiter(c)) && run + t != ""
    ensures TokensFrom(t, run) == [run + t]
  {
    if t == "" {
      assert run + t == run;
    } else {
      assert run + [t[0]] + t[1..] == run + t;
      OneToken(t[1..], run + [t[0]]);
    }
  }

  lemma TokensExtend(prefix: string, seg: Segment)
    requires seg.Key? ==> CleanKey(seg.name)
    ensures Tokens(Extend(prefix, seg)) == Tokens(prefix) + [Token(seg)]
    ensures Extend(prefix, seg) != ""
  {
    match seg
    case Key(name) =>
      OneToken(name, "");
      assert "" + name == name;
      if prefix != "" { SplitAtDelimiter(prefix, '.', name, ""); }
    case Index(i) =>
      var d := Decimal(i);
      OneToken(d, "");
      assert "" + d == d;
      SplitAtDelimiter(d, ']', "", "");
      assert d + [']'] + "" == d + "]" && TokensFrom(d + "]", "") == [d];
      SplitAtDelimiter(prefix, '[', d + "]", "");
      assert prefix + ['['] + (d + "]") == prefix + "[" + d + "]";
  }

  lemma Shift(a: seq<string>, t: string, rest: seq<string>)
    ensures (a + [t]) + rest == a + ([t] + rest)
  {}

  lemma {:induction false} TokensOfPrinted(prefix: string, path: seq<Segment>)
    requires CleanPath(path)
    ensures Tokens(PrintFrom(prefix, path)) == Tokens(prefix) + TokensOf(path)
    decreases path
  {
    if path == [] {
      assert Tokens(prefix) + [] == Tokens(prefix);
    } else {
      var head, rest := path[0], path[1..];
      calc {
        Tokens(PrintFrom(prefix, path));
        Tokens(PrintFrom(Extend(prefix, head), rest));
        { TokensOfPrinted(Extend(prefix, head), rest); }
        Tokens(Extend(prefix, head)) + TokensOf(rest);
        { TokensExtend(prefix, head); }
        (Tokens(prefix) + [Token(head)]) + TokensOf(rest);
        { Shift(Tokens(prefix), Token(head), TokensOf(rest)); }
        Tokens(prefix) + TokensOf(path);
      }
    }
  }

  predicate PlainToken(t: string) { t != "" && forall c :: c in t ==> !Delimiter(c) }

  lemma {:induction false} TokensArePlain(s: string, run: string)
    requires forall c :: c in run ==> !Delimiter(c)
    ensures forall t :: t in TokensFrom(s, run) ==> PlainToken(t)
  {
    if s != "" {
      if Delimiter(s[0]) { TokensArePlain(s[1..], ""); } else { TokensArePlain(s[1..], run + [s[0]]); }
    }
  }

  lemma {:induction false} TokenAt(path: seq<Segment>, k: nat)
    requires k < |path|
    ensures Token(path[k]) in TokensOf(path)
  {
    if k > 0 { TokenAt(path[1..], k - 1); }
  }

  /** Splitting a printed path yields its segments exactly when no key on it is empty or holds
      a path delimiter. */
  lemma PathRoundTrip(path: seq<Segment>)
    ensures Tokens(Print(path)) == TokensOf(path) <==> CleanPath(path)
  {
    if CleanPath(path) {
      TokensOfPrinted("", path);
    } else {
      var k :| 0 <= k < |path| && path[k].Key? && !CleanKey(path[k].name);
      TokenAt(path, k);
      TokensArePlain(Print(path), "");
    }
  }

  // ---------- typed navigation and the verifier's walk ----------

  function Child(v: Value, seg: Segment): Option<Value> {
    match seg
    case Key(name) => if v.Obj? && name in v.fields then Some(v.fields[name]) else None
    case Index(i) => if v.Arr? && i < |v.items| then Some(v.items[i]) else None
  }

  function At(v: Value, path: seq<Segment>): Option<Value> {
    if path == [] then Some(v)
    else match Child(v, path[0])
      case None => None
      case Some(c) => At(c, path[1..])
  }

  predicate IsText(v: Option<Value>) { v.Some? && v.value.Str? }

  predicate Unskipped(path: seq<Segment>) {
    forall k :: 0 <= k < |path| && path[k].Key? ==> path[k].name !in SKIPPED
  }

  // A claim the verifier is shown: a text at a path through no bookkeeping key.
  predicate IsAssertion(v: Value, path: seq<Segment>) { IsText(At(v, path)) && Unskipped(path) }

  // The field names the walk collects.
  function Walk(v: Value, prefix: string): set<string> {
    match v
    case Str(_) => {prefix}
    case Obj(m) =>
      set name, f | name in m.Keys && name !in SKIPPED && f in Walk(m[name], Extend(prefix, Key(name))) :: f
    case Arr(xs) =>
      set i, f | 0 <= i < |xs| && f in Walk(xs[i], Extend(prefix, Index(i))) :: f
    case _ => {}
  }

  lemma {:induction false} WalkComplete(v: Value, prefix: string, path: seq<Segment>)
    requires IsAssertion(v, path)
    ensures PrintFrom(prefix, path) in Walk(v, prefix)
    decreases path
  {
    if path != [] {
      var c := Child(v, path[0]).value;
      assert IsAssertion(c, path[1..]);
      WalkComplete(c, Extend(prefix, path[0]), path[1..]);
      var f := PrintFrom(prefix, path);
      match path[0]
      case Key(name) => assert name in v.fields.Keys && name !in SKIPPED && f in Walk(v.fields[name], Extend(prefix, Key(name)));
      case Index(i) => assert 0 <= i < |v.items| && f in Walk(v.items[i], Extend(prefix, Index(i)));
    }
  }

  lemma {:induction false} WalkSound(v: Value, prefix: string, f: string) returns (path: seq<Segment>)
    requires f in Walk(v, prefix)
    ensures IsAssertion(v, path) && PrintFrom(prefix, path) == f
    decreases v
  {
    match v
    case Str(_) => path := [];
    case Obj(m) =>
      var name :| name in m.Keys && name !in SKIPPED && f in Walk(m[name], Extend(prefix, Key(name)));
      var rest := WalkSound(m[name], Extend(prefix, Key(name)), f);
      path := [Key(name)] + rest;
      assert path[1..] == rest;
    case Arr(xs) =>
      var i :| 0 <= i < |xs| && f in Walk(xs[i], Extend(prefix, Index(i)));
      var rest := WalkSound(xs[i], Extend(prefix, Index(i)), f);
      path := [Index(i)] + rest;
      assert path[1..] == rest;
  }

  /** The walk collects exactly the printed paths of the draft's assertions. */
  lemma WalkExactly(v: Value, f: string)
    ensures f in Walk(v, "") <==> exists path :: IsAssertion(v, path) && Print(path) == f
  {
    if f in Walk(v, "") {
      var path := WalkSound(v, "", f);
      assert Print(path) == f;
    }
    if path :| IsAssertion(v, path) && Print(path) == f { WalkComplete(v, "", path); }
  }

  lemma {:induction false} SameTokensSamePath(v: Value, p: seq<Segment>, q: seq<Segment>)
    requires At(v, p).Some? && At(v, q).Some? && TokensOf(p) == TokensOf(q)
    ensures p == q
    decreases p
  {
    if p != [] && q != [] {
      assert TokensOf(p)[0] == TokensOf(q)[0] && TokensOf(p)[1..] == TokensOf(q)[1..];
      if p[0].Index? && q[0].Index? { DecimalInjective(p[0].i, q[0].i); }
      assert p[0] == q[0];
      SameTokensSamePath(Child(v, p[0]).value, p[1..], q[1..]);
      assert p == [p[0]] + p[1..] && q == [q[0]] + q[1..];
    }
  }

  /** No two places reached by clean keys print the same path. */
  lemma PrintedPathsAreUnique(v: Value, p: seq<Segment>, q: seq<Segment>)
    requires CleanPath(p) && CleanPath(q) && At(v, p).Some? && At(v, q).Some? && Print(p) == Print(q)
    ensures p == q
  {
    PathRoundTrip(p);
    PathRoundTrip(q);
    SameTokensSamePath(v, p, q);
  }
}
