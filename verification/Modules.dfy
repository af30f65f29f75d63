/** Host modules: trees of attributes imported under dotted names, and looked up by them again. */
module Modules {
  import opened Common

  // ---------------------------------------------------------------------------
  // Dotted names

  function Split(s: string): (parts: seq<string>)
    ensures parts != []
  {
    if s == "" then [""]
    else
      var rest := Split(s[1..]);
      if s[0] == '.' then [""] + rest else [[s[0]] + rest[0]] + rest[1..]
  }

  function Join(parts: seq<string>): string
    requires parts != []
  {
    if |parts| == 1 then parts[0] else parts[0] + "." + Join(parts[1..])
  }

  predicate DotFree(s: string) { '.' !in s }

  ghost predicate AllDotFree(parts: seq<string>)
  {
    forall i :: 0 <= i < |parts| ==> DotFree(parts[i])
  }

  lemma {:induction false} SplitPart(part: string, rest: string)
    requires DotFree(part)
    ensures Split(part) == [part]
    ensures Split(part + "." + rest) == [part] + Split(rest)
  {
    if part == "" {
      assert ("" + "." + rest)[1..] == rest;
    } else {
      SplitPart(part[1..], rest);
      assert (part + "." + rest)[1..] == part[1..] + "." + rest;
      assert [part[0]] + part[1..] == part;
    }
  }

  /** Parts without dots survive being joined and split again. */
  lemma {:induction false} SplitJoin(parts: seq<string>)
    requires parts != [] && AllDotFree(parts)
    ensures Split(Join(parts)) == parts
  {
    hide Split;
    if |parts| == 1 {
      SplitPart(parts[0], "");
    } else {
      SplitJoin(parts[1..]);
      SplitPart(parts[0], Join(parts[1..]));
      assert [parts[0]] + parts[1..] == parts;
    }
  }

  // ---------------------------------------------------------------------------
  // Module trees

  /** A map of attributes is given by its entries in key order. Callbacks are named by numbers. */
  datatype Attr = Sub(m: Tree) | NilSub | Callback(id: nat) | Plain(value: nat)

  datatype Entry = Entry(name: string, attr: Attr)

  datatype Tree = Tree(id: nat, attrs: seq<Entry>, stubs: string)

  /** Character classes; neither includes the dot. */
  datatype Alphabet = Alphabet(letter: char -> bool, digitOrMark: char -> bool)

  const KEYWORDS: set<string> := {
    "False", "None", "True", "and", "as", "assert", "async", "await", "break", "class", "continue", "def", "del",
    "elif", "else", "except", "finally", "for", "from", "global", "if", "import", "in", "is", "lambda", "nonlocal",
    "not", "or", "pass", "raise", "return", "try", "while", "with", "yield" }

  predicate Hidden(name: string) { name != "" && name[0] == '_' }

  predicate Identifier(a: Alphabet, name: string)
  {
    && name != "" && name !in KEYWORDS
    && forall i :: 0 <= i < |name| ==> name[i] == '_' || a.letter(name[i]) || (i > 0 && a.digitOrMark(name[i]))
  }

  predicate Sane(a: Alphabet) { !a.letter('.') && !a.digitOrMark('.') }

  lemma IdentifiersHaveNoDots(a: Alphabet, name: string)
    requires Sane(a) && Identifier(a, name)
    ensures DotFree(name)
  {
  }

  ghost predicate DistinctNames(es: seq<Entry>)
  {
    forall i, j :: 0 <= i < j < |es| ==> es[i].name != es[j].name
  }

  /** What construction guarantees at every level of a tree. */
  ghost predicate WellFormed(m: Tree)
    decreases m
  {
    && DistinctNames(m.attrs)
    && (forall i :: 0 <= i < |m.attrs| ==> EntryOk(m.attrs[i]))
  }

  ghost predicate EntryOk(e: Entry)
    decreases e
  {
    DotFree(e.name) && !Hidden(e.name) && !e.attr.NilSub? && (e.attr.Sub? ==> WellFormed(e.attr.m))
  }

  /** Copies the public attributes; fails on a bad name or a nil submodule among them. */
  method NewModule(a: Alphabet, attrs: seq<Entry>, id: nat, stubs: string) returns (r: Result<Tree>)
    requires Sane(a) && DistinctNames(attrs)
    requires forall i :: 0 <= i < |attrs| && attrs[i].attr.Sub? ==> WellFormed(attrs[i].attr.m)
    ensures r.Ok? <==> forall i :: 0 <= i < |attrs| ==>
      Hidden(attrs[i].name) || (Identifier(a, attrs[i].name) && !attrs[i].attr.NilSub?)
    ensures r.Ok? ==> WellFormed(r.value) && r.value == Tree(id, Public(attrs), stubs)
    ensures r.Ok? ==> forall e :: e in r.value.attrs <==> e in attrs && !("_" <= e.name)
  {
    hide Identifier, WellFormed, Public;
    PublicIs(attrs);
    NothingPublic();
    var copied: seq<Entry> := [];
    var i := 0;
    while i < |attrs|
      invariant i <= |attrs| && copied == Public(attrs[..i])
      invariant forall j :: 0 <= j < i ==>
        Hidden(attrs[j].name) || (Identifier(a, attrs[j].name) && !attrs[j].attr.NilSub?)
      invariant forall j :: 0 <= j < |copied| ==> EntryOk(copied[j])
      invariant forall j :: 0 <= j < |copied| ==> exists k :: 0 <= k < i && copied[j] == attrs[k]
      invariant DistinctNames(copied)
    {
      PublicStep(attrs, i);
      var e := attrs[i];
      if !Hidden(e.name) {
        if !Identifier(a, e.name) || e.attr.NilSub? {
          return Err;
        }
        IdentifiersHaveNoDots(a, e.name);
        copied := copied + [e];
      }
      i := i + 1;
    }
    assert attrs[..i] == attrs;
    CopiedIsWellFormed(id, copied, stubs);
    return Ok(Tree(id, copied, stubs));
  }

  function Public(es: seq<Entry>): seq<Entry>
  {
    if es == [] then []
    else
      var e := es[|es| - 1];
      Public(es[..|es| - 1]) + if Hidden(e.name) then [] else [e]
  }

  lemma CopiedIsWellFormed(id: nat, copied: seq<Entry>, stubs: string)
    requires DistinctNames(copied) && forall j :: 0 <= j < |copied| ==> EntryOk(copied[j])
    ensures WellFormed(Tree(id, copied, stubs))
  {
  }

  lemma NothingPublic()
    ensures Public([]) == []
  {
  }

  lemma PublicStep(es: seq<Entry>, i: nat)
    requires i < |es|
    ensures Public(es[..i + 1]) == Public(es[..i]) + if Hidden(es[i].name) then [] else [es[i]]
  {
    assert es[..i + 1][..i] == es[..i];
  }

  /** An attribute is kept if and only if its name does not begin with an underscore. */
  lemma {:induction false} PublicIs(es: seq<Entry>)
    ensures forall e :: e in Public(es) <==> e in es && !("_" <= e.name)
  {
    if es != [] {
      var init, e := es[..|es| - 1], es[|es| - 1];
      PublicIs(init);
      assert es == init + [e];
      assert Hidden(e.name) <==> "_" <= e.name;
    }
  }

  function Lookup(es: seq<Entry>, name: string): (r: Option<Attr>)
    ensures r.Some? <==> exists i :: 0 <= i < |es| && es[i].name == name
  {
    if es == [] then None
    else if es[0].name == name then Some(es[0].attr)
    else Lookup(es[1..], name)
  }

  lemma {:induction false} LookupAt(es: seq<Entry>, i: nat)
    requires DistinctNames(es) && i < |es|
    ensures Lookup(es, es[i].name) == Some(es[i].attr)
  {
    if i > 0 {
      assert es[0].name != es[i].name;
      LookupAt(es[1..], i - 1);
    }
  }

  /** The attribute a path of names leads to. */
  function At(m: Tree, path: seq<string>): Option<Attr>
    requires path != []
    decreases |path|
  {
    var a := Lookup(m.attrs, path[0]);
    if |path| == 1 then a
    else if a.Some? && a.value.Sub? then At(a.value.m, path[1..])
    else None
  }

  /** Looks a dotted name up, one part at a time. */
  method Resolve(modules: map<string, Tree>, name: string) returns (r: Option<nat>)
    ensures r == Resolved(modules, Split(name))
  {
    var parts := Split(name);
    if |parts| < 2 {
      return None;
    }
    var m := if parts[0] in modules then Some(modules[parts[0]]) else None;
    var i := 1;
    while i < |parts| - 1
      invariant 1 <= i <= |parts| - 1
      invariant Resolved(modules, parts) == Walk(m, parts[i..])
    {
      if m.None? || Hidden(parts[i]) {
        return None;
      }
      assert parts[i..][1..] == parts[i + 1..];
      var a := Lookup(m.value.attrs, parts[i]);
      m := if a.Some? && a.value.Sub? then Some(a.value.m) else None;
      i := i + 1;
    }
    if m.None? || Hidden(parts[i]) {
      return None;
    }
    var fn := Lookup(m.value.attrs, parts[i]);
    return if fn.Some? && fn.value.Callback? then Some(fn.value.id) else None;
  }

  function Walk(m: Option<Tree>, path: seq<string>): Option<nat>
    requires path != []
    decreases |path|
  {
    if m.None? || Hidden(path[0]) then None
    else
      var a := Lookup(m.value.attrs, path[0]);
      if |path| == 1 then (if a.Some? && a.value.Callback? then Some(a.value.id) else None)
      else Walk(if a.Some? && a.value.Sub? then Some(a.value.m) else None, path[1..])
  }

  function Resolved(modules: map<string, Tree>, parts: seq<string>): Option<nat>
  {
    if |parts| < 2 then None
    else Walk(if parts[0] in modules then Some(modules[parts[0]]) else None, parts[1..])
  }

  ghost predicate NoneHidden(path: seq<string>)
  {
    forall i :: 0 <= i < |path| ==> !Hidden(path[i])
  }

  lemma {:induction false} WalkFollowsPath(m: Tree, path: seq<string>, id: nat)
    requires path != []
    ensures Walk(Some(m), path) == Some(id) <==> NoneHidden(path) && At(m, path) == Some(Callback(id))
    decreases |path|
  {
    if |path| > 1 {
      var a := Lookup(m.attrs, path[0]);
      if a.Some? && a.value.Sub? {
        WalkFollowsPath(a.value.m, path[1..], id);
        if NoneHidden(path[1..]) && !Hidden(path[0]) {
          assert forall i :: 0 < i < |path| ==> path[i] == path[1..][i - 1];
        }
      }
    }
  }

  /**
   A name resolves to a callback exactly when its parts, none of them after the first hidden,
   spell a path to it; so an attribute with a leading underscore is never reachable by name.
   */
  lemma ResolvesExactlyPaths(modules: map<string, Tree>, name: string, id: nat)
    ensures
      var parts := Split(name);
      Resolved(modules, parts) == Some(id) <==> (
        && |parts| >= 2 && parts[0] in modules && NoneHidden(parts[1..])
        && At(modules[parts[0]], parts[1..]) == Some(Callback(id)))
  {
    var parts := Split(name);
    if |parts| >= 2 && parts[0] in modules {
      WalkFollowsPath(modules[parts[0]], parts[1..], id);
    }
  }

  // ---------------------------------------------------------------------------
  // Importing

  datatype Given = Module(m: Imported) | Function(name: string) | Value(value: nat)

  datatype GivenEntry = GivenEntry(key: string, given: Given)

  datatype Imported = Imported(name: string, id: nat, attrs: seq<GivenEntry>)

  const MAX_DEPTH: nat := 64

  function Import(m: Tree, name: string, depth: nat): Result<Imported>
    decreases m, 1
  {
    if depth > MAX_DEPTH then Err
    else
      match ImportAll(m.attrs, name, depth)
      case Err => Err
      case Ok(attrs) => Ok(Imported(name, m.id, attrs))
  }

  function ImportAll(es: seq<Entry>, name: string, depth: nat): Result<seq<GivenEntry>>
    decreases es, 0
  {
    if es == [] then Ok([])
    else
      match ImportOne(es[0], name, depth)
      case Err => Err
      case Ok(g) => Prepend([g], ImportAll(es[1..], name, depth))
  }

  function ImportOne(e: Entry, name: string, depth: nat): Result<GivenEntry>
    decreases e, 0
  {
    match e.attr
    case NilSub => Err
    case Callback(_) => Ok(GivenEntry(e.name, Function(name + "." + e.name)))
    case Plain(v) => Ok(GivenEntry(e.name, Value(v)))
    case Sub(c) =>
      match Import(c, name + "." + e.name, depth + 1)
      case Err => Err
      case Ok(im) => Ok(GivenEntry(e.name, Module(im)))
  }

  /** Turns a module into the value an import gives the sandbox. */
  method ImportModule(m: Tree, name: string, depth: nat) returns (r: Result<Imported>)
    ensures r == Import(m, name, depth)
    decreases m
  {
    if depth > MAX_DEPTH {
      return Err;
    }
    var attrs: seq<GivenEntry> := [];
    var i := 0;
    PrependConcat([], [], ImportAll(m.attrs, name, depth));
    assert m.attrs[0..] == m.attrs;
    while i < |m.attrs|
      invariant i <= |m.attrs|
      invariant ImportAll(m.attrs, name, depth) == Prepend(attrs, ImportAll(m.attrs[i..], name, depth))
    {
      var e := m.attrs[i];
      assert m.attrs[i..][1..] == m.attrs[i + 1..];
      var g: Given;
      match e.attr {
        case NilSub =>
          return Err;
        case Sub(c) =>
          var child := ImportModule(c, name + "." + e.name, depth + 1);
          if child.Err? {
            return Err;
          }
          g := Module(child.value);
        case Callback(_) =>
          g := Function(name + "." + e.name);
        case Plain(v) =>
          g := Value(v);
      }
      PrependConcat(attrs, [GivenEntry(e.name, g)], ImportAll(m.attrs[i + 1..], name, depth));
      attrs := attrs + [GivenEntry(e.name, g)];
      i := i + 1;
    }
    assert attrs + [] == attrs;
    return Ok(Imported(name, m.id, attrs));
  }

  function Height(m: Tree): nat
    decreases m, 1
  {
    HeightAll(m.attrs)
  }

  function HeightAll(es: seq<Entry>): nat
    decreases es, 0
  {
    if es == [] then 0
    else
      var rest := HeightAll(es[1..]);
      var first := HeightOne(es[0]);
      if first > rest then first else rest
  }

  function HeightOne(e: Entry): nat
    decreases e, 0
  {
    match e.attr
    case Sub(c) => Height(c) + 1
    case _ => 0
  }

  /** Importing fails just for trees more than 64 levels deep. */
  lemma {:induction false} ImportSucceedsUpToDepth(m: Tree, name: string, depth: nat)
    requires WellFormed(m)
    ensures Import(m, name, depth).Ok? <==> depth + Height(m) <= 64
    decreases m, 1
  {
    if depth <= MAX_DEPTH {
      ImportAllSucceeds(m.attrs, name, depth);
    }
  }

  lemma {:induction false} ImportAllSucceeds(es: seq<Entry>, name: string, depth: nat)
    requires depth <= MAX_DEPTH && forall i :: 0 <= i < |es| ==> EntryOk(es[i])
    ensures ImportAll(es, name, depth).Ok? <==> depth + HeightAll(es) <= MAX_DEPTH
    decreases es, 0
  {
    if es != [] {
      assert EntryOk(es[0]);
      if es[0].attr.Sub? {
        ImportSucceedsUpToDepth(es[0].attr.m, name + "." + es[0].name, depth + 1);
      }
      ImportAllSucceeds(es[1..], name, depth);
    }
  }

  function LookupGiven(gs: seq<GivenEntry>, key: string): Option<Given>
  {
    if gs == [] then None else if gs[0].key == key then Some(gs[0].given) else LookupGiven(gs[1..], key)
  }

  /** What Python code finds by following attributes of an imported module. */
  function GivenAt(im: Imported, path: seq<string>): Option<Given>
    requires path != []
    decreases |path|
  {
    var g := LookupGiven(im.attrs, path[0]);
    if |path| == 1 then g
    else if g.Some? && g.value.Module? then GivenAt(g.value.m, path[1..])
    else None
  }

  lemma {:induction false} LookupImported(es: seq<Entry>, name: string, depth: nat, key: string)
    requires ImportAll(es, name, depth).Ok?
    ensures
      var a := Lookup(es, key);
      var g := LookupGiven(ImportAll(es, name, depth).value, key);
      && (a.None? <==> g.None?)
      && (a.Some? ==> ImportOne(Entry(key, a.value), name, depth) == Ok(GivenEntry(key, g.value)))
  {
    if es != [] {
      var g := ImportOne(es[0], name, depth).value;
      var rest := ImportAll(es[1..], name, depth).value;
      assert ([g] + rest)[1..] == rest;
      assert es[0] == Entry(es[0].name, es[0].attr);
      LookupImported(es[1..], name, depth, key);
    }
  }

  /** What an import holds for an attribute: nothing for nothing, else its own kind with its own content. */
  predicate Mirrors(a: Option<Attr>, g: Option<Given>, name: string)
  {
    match a
    case None => g.None?
    case Some(Callback(_)) => g == Some(Function(name))
    case Some(Plain(v)) => g == Some(Value(v))
    case Some(Sub(c)) => g.Some? && g.value.Module? && SameModule(c, g.value.m, name)
    case Some(NilSub) => false
  }

  /** The module's identity under the imported name, with its attributes' names in order. */
  predicate SameModule(m: Tree, im: Imported, name: string)
  {
    && im.name == name && im.id == m.id && |im.attrs| == |m.attrs|
    && forall i :: 0 <= i < |m.attrs| ==> im.attrs[i].key == m.attrs[i].name
  }

  lemma {:induction false} ImportedKeys(es: seq<Entry>, name: string, depth: nat)
    requires ImportAll(es, name, depth).Ok?
    ensures |ImportAll(es, name, depth).value| == |es|
    ensures forall i :: 0 <= i < |es| ==> ImportAll(es, name, depth).value[i].key == es[i].name
  {
    hide Import;
    if es != [] {
      ImportedKeys(es[1..], name, depth);
    }
  }

  lemma ImportIsSame(m: Tree, name: string, depth: nat)
    requires Import(m, name, depth).Ok?
    ensures SameModule(m, Import(m, name, depth).value, name)
  {
    ImportedKeys(m.attrs, name, depth);
  }

  /** The import holds at every path what the tree holds there, and nothing anywhere else. */
  lemma {:induction false} ImportMirrors(m: Tree, prefix: seq<string>, depth: nat, path: seq<string>)
    requires prefix != [] && path != [] && Import(m, Join(prefix), depth).Ok?
    ensures SameModule(m, Import(m, Join(prefix), depth).value, Join(prefix))
    ensures Mirrors(At(m, path), GivenAt(Import(m, Join(prefix), depth).value, path), Join(prefix + path))
    decreases |path|
  {
    hide SameModule;
    var name := Join(prefix);
    ImportIsSame(m, name, depth);
    LookupImported(m.attrs, name, depth, path[0]);
    JoinSnoc(prefix, path[0]);
    var a := Lookup(m.attrs, path[0]);
    if a.Some? && a.value.Sub? {
      ImportIsSame(a.value.m, name + "." + path[0], depth + 1);
    }
    if |path| == 1 {
      assert path == [path[0]];
    } else if a.Some? && a.value.Sub? {
      assert prefix + path == prefix + [path[0]] + path[1..];
      ImportMirrors(a.value.m, prefix + [path[0]], depth + 1, path[1..]);
    }
  }

  /**
   Every function the sandbox is given, however deep, carries a name that resolves back to the
   very callback it was made from.
   */
  lemma {:induction false} ImportedNamesResolveBack(
      m: Tree, prefix: seq<string>, depth: nat, path: seq<string>, id: nat)
    requires prefix != [] && path != [] && Import(m, Join(prefix), depth).Ok?
    requires At(m, path) == Some(Callback(id))
    ensures GivenAt(Import(m, Join(prefix), depth).value, path) == Some(Function(Join(prefix + path)))
    decreases |path|
  {
    var name := Join(prefix);
    LookupImported(m.attrs, name, depth, path[0]);
    JoinSnoc(prefix, path[0]);
    if |path| == 1 {
      assert path == [path[0]];
    } else {
      var c := Lookup(m.attrs, path[0]).value.m;
      assert prefix + path == prefix + [path[0]] + path[1..];
      ImportedNamesResolveBack(c, prefix + [path[0]], depth + 1, path[1..], id);
    }
  }

  /** And conversely: a function met in an import was made from a callback at that very path. */
  lemma {:induction false} ImportedFunctionsAreCallbacks(m: Tree, prefix: seq<string>, depth: nat, path: seq<string>)
    returns (id: nat)
    requires prefix != [] && path != [] && Import(m, Join(prefix), depth).Ok?
    requires
      var g := GivenAt(Import(m, Join(prefix), depth).value, path);
      g.Some? && g.value.Function?
    ensures At(m, path) == Some(Callback(id))
    ensures GivenAt(Import(m, Join(prefix), depth).value, path) == Some(Function(Join(prefix + path)))
    decreases |path|
  {
    var name := Join(prefix);
    LookupImported(m.attrs, name, depth, path[0]);
    JoinSnoc(prefix, path[0]);
    var a := Lookup(m.attrs, path[0]).value;
    if |path| == 1 {
      assert path == [path[0]];
      id := a.id;
    } else {
      assert prefix + path == prefix + [path[0]] + path[1..];
      id := ImportedFunctionsAreCallbacks(a.m, prefix + [path[0]], depth + 1, path[1..]);
    }
  }

  lemma {:induction false} JoinSnoc(parts: seq<string>, last: string)
    requires parts != []
    ensures Join(parts + [last]) == Join(parts) + "." + last
  {
    if |parts| > 1 {
      JoinSnoc(parts[1..], last);
      assert (parts + [last])[1..] == parts[1..] + [last];
      assert parts[0] + "." + (Join(parts[1..]) + "." + last) == parts[0] + "." + Join(parts[1..]) + "." + last;
    } else {
      assert (parts + [last])[1..] == [last];
    }
  }

  /** Paths to attributes of a well-formed tree have no dots and nothing hidden. */
  lemma {:induction false} PathsAreClean(m: Tree, path: seq<string>)
    requires WellFormed(m) && path != [] && At(m, path).Some?
    ensures AllDotFree(path) && NoneHidden(path)
    decreases |path|
  {
    var i :| 0 <= i < |m.attrs| && m.attrs[i].name == path[0];
    assert EntryOk(m.attrs[i]);
    if |path| > 1 {
      LookupAt(m.attrs, i);
      PathsAreClean(m.attrs[i].attr.m, path[1..]);
      assert forall k :: 0 < k < |path| ==> path[k] == path[1..][k - 1];
    }
  }

  /**
   The round trip, from the import's side: whatever function is found in an imported module, its
   name resolves to the callback it was made from.
   */
  lemma FunctionsResolve(modules: map<string, Tree>, top: string, path: seq<string>, name: string)
    requires top in modules && DotFree(top) && WellFormed(modules[top]) && path != []
    requires Import(modules[top], top, 0).Ok?
    requires GivenAt(Import(modules[top], top, 0).value, path) == Some(Function(name))
    ensures name == Join([top] + path) && At(modules[top], path).Some? && At(modules[top], path).value.Callback?
    ensures Resolved(modules, Split(name)) == Some(At(modules[top], path).value.id)
  {
    var id := ImportedFunctionsAreCallbacks(modules[top], [top], 0, path);
    CallbacksComeBack(modules, top, path, id);
  }

  /** From the tree's side: import a registered module, take any callback in it, look its name up. */
  lemma CallbacksComeBack(modules: map<string, Tree>, top: string, path: seq<string>, id: nat)
    requires top in modules && DotFree(top) && WellFormed(modules[top]) && path != []
    requires Import(modules[top], top, 0).Ok? && At(modules[top], path) == Some(Callback(id))
    ensures
      var name := Join([top] + path);
      && GivenAt(Import(modules[top], top, 0).value, path) == Some(Function(name))
      && Resolved(modules, Split(name)) == Some(id)
  {
    PathsAreClean(modules[top], path);
    ImportedNamesResolveBack(modules[top], [top], 0, path, id);
    SplitJoin([top] + path);
    assert ([top] + path)[1..] == path;
    ResolvesExactlyPaths(modules, Join([top] + path), id);
  }

  /** Different attributes never share a name. */
  lemma NamesAreDistinct(p: seq<string>, q: seq<string>)
    requires p != [] && q != [] && AllDotFree(p) && AllDotFree(q)
    ensures Join(p) == Join(q) <==> p == q
  {
    SplitJoin(p);
    SplitJoin(q);
  }

  // ---------------------------------------------------------------------------
  // Stubs

  /** Stub sources by dotted name; a module without any is listed with none. */
  type Stubs = map<string, Option<string>>

  class StubTable {
    var stubs: Stubs

    constructor ()
      ensures stubs == map[]
    {
      stubs := map[];
    }
  }

  function StubOf(m: Tree): Option<string>
  {
    if m.stubs == "" then None else Some(m.stubs)
  }

  function Collected(m: Tree, name: string, table: Stubs): Stubs
    decreases m, 1
  {
    CollectedAll(m.attrs, name, table[name := StubOf(m)])
  }

  function CollectedAll(es: seq<Entry>, name: string, table: Stubs): Stubs
    decreases es, 0
  {
    if es == [] then table
    else CollectedAll(es[1..], name, CollectedOne(es[0], name, table))
  }

  function CollectedOne(e: Entry, name: string, table: Stubs): Stubs
    decreases e, 0
  {
    match e.attr
    case Sub(c) => Collected(c, name + "." + e.name, table)
    case _ => table
  }

  /** Writes a module's stubs and its submodules' into the caller's table. */
  method CollectStubs(m: Tree, name: string, table: StubTable)
    modifies table
    ensures table.stubs == Collected(m, name, old(table.stubs))
    decreases m
  {
    table.stubs := table.stubs[name := StubOf(m)];
    var i := 0;
    assert m.attrs[0..] == m.attrs;
    while i < |m.attrs|
      invariant i <= |m.attrs|
      invariant Collected(m, name, old(table.stubs)) == CollectedAll(m.attrs[i..], name, table.stubs)
    {
      var e := m.attrs[i];
      assert m.attrs[i..][1..] == m.attrs[i + 1..];
      if e.attr.Sub? {
        CollectStubs(e.attr.m, name + "." + e.name, table);
      }
      i := i + 1;
    }
  }

  /** The module a split name denotes, if the tree under the prefix has it. */
  function Named(m: Tree, prefix: seq<string>, parts: seq<string>): Option<Tree>
  {
    if parts == prefix then Some(m)
    else if |prefix| < |parts| && prefix <= parts then
      var a := At(m, parts[|prefix|..]);
      if a.Some? && a.value.Sub? then Some(a.value.m) else None
    else None
  }

  function NamedIn(es: seq<Entry>, prefix: seq<string>, parts: seq<string>): Option<Tree>
  {
    if |prefix| < |parts| && prefix <= parts then
      var a := Lookup(es, parts[|prefix|]);
      if a.Some? && a.value.Sub? then Named(a.value.m, parts[..|prefix| + 1], parts) else None
    else None
  }

  ghost predicate Holds(after: Stubs, before: Stubs, name: string, found: Option<Tree>)
  {
    if found.Some? then
      name in after && after[name] == if found.value.stubs == "" then None else Some(found.value.stubs)
    else (name in after <==> name in before) && (name in after ==> after[name] == before[name])
  }

  lemma {:induction false} StubsBySplitName(m: Tree, prefix: seq<string>, table: Stubs, parts: seq<string>)
    requires WellFormed(m) && prefix != [] && AllDotFree(prefix) && parts != [] && AllDotFree(parts)
    ensures Holds(Collected(m, Join(prefix), table), table, Join(parts), Named(m, prefix, parts))
    decreases m, 1
  {
    var name := Join(prefix);
    NamesAreDistinct(prefix, parts);
    StubsOfEntries(m.attrs, prefix, table[name := StubOf(m)], parts);
    if |prefix| < |parts| && prefix <= parts {
      assert parts[..|prefix|] == prefix;
      NamedSteps(m, prefix, parts);
    }
  }

  lemma NamedSteps(m: Tree, prefix: seq<string>, parts: seq<string>)
    requires |prefix| < |parts| && prefix <= parts
    ensures Named(m, prefix, parts) == NamedIn(m.attrs, prefix, parts)
  {
    var k := |prefix|;
    var longer := parts[..k + 1];
    assert parts[k..][1..] == parts[k + 1..];
    if |parts| == k + 1 {
      assert longer == parts;
    } else {
      assert longer <= parts && |longer| < |parts|;
    }
  }

  lemma {:induction false} StubsOfEntries(es: seq<Entry>, prefix: seq<string>, table: Stubs, parts: seq<string>)
    requires DistinctNames(es) && forall i :: 0 <= i < |es| ==> EntryOk(es[i])
    requires prefix != [] && AllDotFree(prefix) && parts != [] && AllDotFree(parts)
    ensures Holds(CollectedAll(es, Join(prefix), table), table, Join(parts), NamedIn(es, prefix, parts))
    decreases es, 0
  {
    if es != [] {
      var e := es[0];
      assert EntryOk(e);
      var next := CollectedOne(e, Join(prefix), table);
      StubsOfEntries(es[1..], prefix, next, parts);
      if e.attr.Sub? {
        JoinSnoc(prefix, e.name);
        StubsBySplitName(e.attr.m, prefix + [e.name], table, parts);
      }
      if |prefix| < |parts| && prefix <= parts && parts[|prefix|] == e.name {
        assert parts[..|prefix| + 1] == prefix + [e.name];
        assert Lookup(es[1..], e.name) == None;
      } else if e.attr.Sub? {
        assert Named(e.attr.m, prefix + [e.name], parts) == None by {
          if prefix + [e.name] <= parts {
            assert parts[|prefix|] == (prefix + [e.name])[|prefix|];
          }
        }
      }
    }
  }

  /** Every string is the dotted name of its own parts. */
  lemma {:induction false} EveryNameSplits(s: string)
    ensures AllDotFree(Split(s)) && Join(Split(s)) == s
  {
    if s != "" {
      EveryNameSplits(s[1..]);
      var rest := Split(s[1..]);
      if s[0] == '.' {
        assert ([""] + rest)[1..] == rest;
        assert "" + "." + Join(rest) == s;
      } else {
        var parts := [[s[0]] + rest[0]] + rest[1..];
        assert [s[0]] + s[1..] == s;
        if |rest| > 1 {
          assert parts[1..] == rest[1..];
          assert [s[0]] + (rest[0] + "." + Join(rest[1..])) == [s[0]] + rest[0] + "." + Join(rest[1..]);
        }
        assert forall i :: 0 < i < |parts| ==> parts[i] == rest[i];
      }
    }
  }

  /**
   The table ends up with exactly one entry per module of the tree, under its dotted name, holding
   that module's own stubs; whatever is under any other string at all is as it was.
   */
  lemma StubsByName(m: Tree, prefix: seq<string>, table: Stubs, key: string)
    requires WellFormed(m) && prefix != [] && AllDotFree(prefix)
    ensures Holds(Collected(m, Join(prefix), table), table, key, Named(m, prefix, Split(key)))
  {
    EveryNameSplits(key);
    StubsBySplitName(m, prefix, table, Split(key));
  }
}
