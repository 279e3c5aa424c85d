/** Which upstream files a vendored component needs: the compiled sources, the public headers and
    everything they include, found with a worklist. */
module SourceClosure {
  datatype Component = Acados | Blasfeo | Hpipm

  /** Where a quoted include may be found, tried in order: beside the including file, at the root,
      in the root's include directory. A candidate that exists is a file in the tree or, by a link,
      one outside it. */
  datatype Candidate = Absent | Inside(path: string) | Outside
  datatype Tree = Tree(files: map<string, seq<seq<Candidate>>>)
  datatype Result = Found(files: set<string>) | Missing(path: string) | Escapes(path: string)

  /** What exists inside the tree can be read. */
  predicate WellFormed(t: Tree) {
    forall f, i :: f in t.files && 0 <= i < |t.files[f]| ==> forall c :: c in t.files[f][i] ==> Readable(t, c)
  }

  predicate Readable(t: Tree, c: Candidate) { c.Inside? ==> c.path in t.files }

  /** The first candidate that exists. */
  function Resolve(candidates: seq<Candidate>): (c: Candidate)
    ensures !c.Absent? ==> c in candidates
  {
    if candidates == [] then Absent
    else if !candidates[0].Absent? then candidates[0]
    else Resolve(candidates[1..])
  }

  const TARGET_TEMPLATE := "blasfeo_target.h.in"

  function Start(component: Component, sources: set<string>, headers: set<string>, license: string): set<string> {
    sources + headers + {license} + (if component.Blasfeo? then {TARGET_TEMPLATE} else {})
  }

  /** Everything a component cannot do without, whatever it includes. */
  predicate Holds(component: Component, sources: set<string>, headers: set<string>, license: string, files: set<string>) {
    sources <= files && headers <= files && license in files && (component.Blasfeo? ==> TARGET_TEMPLATE in files)
  }

  /** The file can be read and everything it includes that exists is in the set. */
  ghost predicate Satisfied(t: Tree, kept: set<string>, f: string) {
    f in t.files && forall i :: 0 <= i < |t.files[f]| ==> Covered(Resolve(t.files[f][i]), kept)
  }

  predicate Covered(c: Candidate, kept: set<string>) {
    match c
    case Absent => true
    case Inside(p) => p in kept
    case Outside => false
  }

  ghost predicate Closed(t: Tree, kept: set<string>) { forall f :: f in kept ==> Satisfied(t, kept, f) }

  /** Every closed set that holds the start holds these too. */
  ghost predicate Needed(t: Tree, start: set<string>, kept: set<string>) {
    forall all: set<string> :: start <= all && Closed(t, all) ==> kept <= all
  }

  lemma NeededMore(t: Tree, start: set<string>, kept: set<string>, f: string, i: int)
    requires Needed(t, start, kept) && f in kept && f in t.files && 0 <= i < |t.files[f]|
    requires Resolve(t.files[f][i]).Inside?
    ensures Needed(t, start, kept + {Resolve(t.files[f][i]).path})
  {
    forall all: set<string> | start <= all && Closed(t, all) ensures Resolve(t.files[f][i]).path in all {
      assert Satisfied(t, all, f);
      assert Covered(Resolve(t.files[f][i]), all);
    }
  }

  /** A file that cannot be read, or that includes one outside the tree. */
  predicate Bad(t: Tree, f: string) {
    f !in t.files || exists i :: 0 <= i < |t.files[f]| && Resolve(t.files[f][i]).Outside?
  }

  lemma Unreadable(t: Tree, f: string)
    requires f !in t.files
    ensures Bad(t, f)
  {
  }

  lemma BadIsNeverSatisfied(t: Tree, kept: set<string>, f: string)
    requires Bad(t, f)
    ensures !Satisfied(t, kept, f)
  {
    if f in t.files {
      var i :| 0 <= i < |t.files[f]| && Resolve(t.files[f][i]).Outside?;
      assert !Covered(Resolve(t.files[f][i]), kept);
    }
  }

  lemma NoneClosed(t: Tree, start: set<string>, kept: set<string>, f: string)
    requires Needed(t, start, kept) && f in kept && Bad(t, f)
    ensures forall all: set<string> :: start <= all ==> !Closed(t, all)
  {
    forall all: set<string> | start <= all ensures !Closed(t, all) {
      BadIsNeverSatisfied(t, all, f);
    }
  }

  lemma StillSatisfied(t: Tree, kept: set<string>, more: set<string>, f: string)
    requires Satisfied(t, kept, f) && kept <= more
    ensures Satisfied(t, more, f)
  {
    forall i | 0 <= i < |t.files[f]| ensures Covered(Resolve(t.files[f][i]), more) {
      assert Covered(Resolve(t.files[f][i]), kept);
    }
  }

  predicate NoRepeats(s: seq<string>) { forall i, j :: 0 <= i < j < |s| ==> s[i] != s[j] }
  function Elements(s: seq<string>): set<string> { set f | f in s }

  /** The first candidate that exists, by trying them in turn. */
  method FirstExisting(candidates: seq<Candidate>) returns (c: Candidate)
    ensures c == Resolve(candidates)
  {
    for i: nat := 0 to |candidates|
      invariant Resolve(candidates) == Resolve(candidates[i..])
    {
      assert candidates[i..][1..] == candidates[i + 1..];
      if !candidates[i].Absent? { return candidates[i]; }
    }
    return Absent;
  }

  method Listed(files: set<string>) returns (s: seq<string>)
    ensures Elements(s) == files && NoRepeats(s)
  {
    s := [];
    var rest := files;
    while rest != {}
      invariant Elements(s) + rest == files && Elements(s) !! rest && NoRepeats(s)
      decreases |rest|
    {
      var f :| f in rest;
      s, rest := s + [f], rest - {f};
    }
  }

  lemma Popped(s: seq<string>)
    requires s != [] && NoRepeats(s)
    ensures var init, last := s[..|s| - 1], s[|s| - 1];
            NoRepeats(init) && Elements(s) == Elements(init) + {last} && last !in Elements(init)
  {
    var init, last := s[..|s| - 1], s[|s| - 1];
    assert s == init + [last];
  }

  lemma Pushed(s: seq<string>, last: string, f: string)
    requires NoRepeats(s + [last]) && f !in Elements(s + [last])
    ensures NoRepeats(s + [f] + [last]) && Elements(s + [f] + [last]) == Elements(s + [last]) + {f}
  {
    var t, u := s + [f] + [last], s + [last];
    assert f !in u;
    forall i, j | 0 <= i < j < |t| ensures t[i] != t[j] {
      assert t[i] == if i < |s| then u[i] else f;
      assert t[j] == if j < |s| then u[j] else if j == |s| then f else u[|s|];
    }
    assert forall g :: g in Elements(t) <==> g in s || g == f || g == last;
  }

  lemma Fewer(a: set<string>, b: set<string>, all: set<string>)
    requires a <= b <= all
    ensures |a| <= |b| <= |all| && (a != b ==> |a| < |b|)
  {
    assert b == a + (b - a) && all == b + (all - b);
  }

  /** What the worklist maintains: `handled` files are satisfied, the others wait, nobody waits twice,
      and everything kept is needed. */
  ghost predicate Progress(t: Tree, start: set<string>, keep: set<string>, handled: set<string>, pending: seq<string>) {
    && start <= keep <= start + t.files.Keys && Needed(t, start, keep)
    && keep == handled + Elements(pending) && handled !! Elements(pending) && NoRepeats(pending)
    && forall f :: f in handled ==> Satisfied(t, keep, f)
  }

  lemma KeepsOneMore(t: Tree, start: set<string>, keep: set<string>, handled: set<string>, pending: seq<string>,
                     name: string, i: nat)
    requires WellFormed(t) && Progress(t, start, keep, handled, pending + [name])
    requires name in t.files && i < |t.files[name]|
    requires var c := Resolve(t.files[name][i]); c.Inside? && c.path !in keep
    ensures var f := Resolve(t.files[name][i]).path;
            Progress(t, start, keep + {f}, handled, pending + [f] + [name])
  {
    var f := Resolve(t.files[name][i]).path;
    hide WellFormed, Needed;
    assert name == (pending + [name])[|pending|];
    assert name in Elements(pending + [name]);
    NeededMore(t, start, keep, name, i);
    ReadableTarget(t, name, i);
    Pushed(pending, name, f);
    forall g | g in handled ensures Satisfied(t, keep + {f}, g) { StillSatisfied(t, keep, keep + {f}, g); }
  }

  lemma ReadableTarget(t: Tree, name: string, i: nat)
    requires WellFormed(t) && name in t.files && i < |t.files[name]| && Resolve(t.files[name][i]).Inside?
    ensures Resolve(t.files[name][i]).path in t.files
  {
    assert Readable(t, Resolve(t.files[name][i]));
  }

  lemma Handled(t: Tree, start: set<string>, keep: set<string>, handled: set<string>, pending: seq<string>, name: string)
    requires Progress(t, start, keep, handled, pending + [name]) && Satisfied(t, keep, name)
    ensures Progress(t, start, keep, handled + {name}, pending) && name !in handled
  {
    hide Needed, Satisfied;
    Popped(pending + [name]);
    assert (pending + [name])[..|pending|] == pending;
  }

  lemma Kept(t: Tree, start: set<string>, keep: set<string>, handled: set<string>, pending: seq<string>, name: string)
    requires Progress(t, start, keep, handled, pending + [name])
    ensures name in keep && Needed(t, start, keep) && keep <= start + t.files.Keys
  {
    assert name == (pending + [name])[|pending|];
    assert name in Elements(pending + [name]);
  }

  lemma Begun(t: Tree, start: set<string>, pending: seq<string>)
    requires Elements(pending) == start && NoRepeats(pending)
    ensures Progress(t, start, start, {}, pending)
  {
  }

  lemma Finished(t: Tree, start: set<string>, keep: set<string>, handled: set<string>)
    requires Progress(t, start, keep, handled, [])
    ensures keep == handled && start <= keep && Closed(t, keep) && Needed(t, start, keep)
  {
    hide Satisfied, Needed;
    assert Elements([]) == {};
  }

  /** Everything one file includes. */
  method Scan(t: Tree, start: set<string>, name: string, keep: set<string>, pending: seq<string>,
              ghost handled: set<string>)
    returns (ok: bool, more: set<string>, rest: seq<string>)
    requires WellFormed(t) && name in t.files && Progress(t, start, keep, handled, pending + [name])
    ensures !ok ==> Bad(t, name)
    ensures ok ==> keep <= more && (more == keep ==> rest == pending)
    ensures ok ==> Progress(t, start, more, handled, rest + [name]) && Satisfied(t, more, name)
  {
    hide WellFormed, Progress;
    more, rest := keep, pending;
    for i: nat := 0 to |t.files[name]|
      invariant Progress(t, start, more, handled, rest + [name]) && keep <= more && (more == keep ==> rest == pending)
      invariant forall k :: 0 <= k < i ==> Covered(Resolve(t.files[name][k]), more)
    {
      var c := FirstExisting(t.files[name][i]);
      if c.Outside? { return false, more, rest; }
      if c.Inside? && c.path !in more {
        KeepsOneMore(t, start, more, handled, rest, name, i);
        more, rest := more + {c.path}, rest + [c.path];
      }
    }
    return true, more, rest;
  }

  /** Either the least set that holds the start and is closed under includes, with every file in it
      read exactly once, or a file that shows that no closed set holds the start. */
  method Closure(t: Tree, start: set<string>) returns (r: Result, visits: nat)
    requires WellFormed(t)
    ensures r.Found? ==> start <= r.files && Closed(t, r.files) && Needed(t, start, r.files) && visits == |r.files|
    ensures !r.Found? ==> Bad(t, r.path) && forall all: set<string> :: start <= all ==> !Closed(t, all)
  {
    hide WellFormed, Progress, Needed, Closed, Satisfied, Bad, Elements, NoRepeats;
    var keep := start;
    var pending := Listed(start);
    ghost var handled: set<string> := {};
    visits := 0;
    Begun(t, start, pending);
    while pending != []
      invariant Progress(t, start, keep, handled, pending) && visits == |handled|
      decreases |start + t.files.Keys| - |keep|, |pending|
    {
      var name := pending[|pending| - 1];
      assert pending == pending[..|pending| - 1] + [name];
      Kept(t, start, keep, handled, pending[..|pending| - 1], name);
      if name !in t.files {
        Unreadable(t, name);
        NoneClosed(t, start, keep, name);
        return Missing(name), visits;
      }
      var ok, more, rest := Scan(t, start, name, keep, pending[..|pending| - 1], handled);
      if !ok {
        NoneClosed(t, start, keep, name);
        return Escapes(name), visits;
      }
      Kept(t, start, more, handled, rest, name);
      Fewer(keep, more, start + t.files.Keys);
      Handled(t, start, more, handled, rest, name);
      keep, pending, handled := more, rest, handled + {name};
      visits := visits + 1;
    }
    Finished(t, start, keep, handled);
    return Found(keep), visits;
  }

  /** The files a component ships with: the least set that holds what it is built from and is closed
      under includes. It fails only on a file that keeps every such set from being closed. */
  method ShippedFiles(t: Tree, component: Component, sources: set<string>, headers: set<string>, license: string)
    returns (r: Result, visits: nat)
    requires WellFormed(t)
    ensures r.Found? ==>
      && Holds(component, sources, headers, license, r.files) && Closed(t, r.files) && visits == |r.files|
      && forall all: set<string> :: Holds(component, sources, headers, license, all) && Closed(t, all) ==> r.files <= all
    ensures !r.Found? ==>
      Bad(t, r.path) && forall all: set<string> :: Holds(component, sources, headers, license, all) ==> !Closed(t, all)
  {
    hide WellFormed, Closed, Bad;
    StartIsLeast(component, sources, headers, license);
    r, visits := Closure(t, Start(component, sources, headers, license));
    hide Holds, Start;
  }

  lemma StartIsLeast(component: Component, sources: set<string>, headers: set<string>, license: string)
    ensures forall all: set<string> ::
      Holds(component, sources, headers, license, all) <==> Start(component, sources, headers, license) <= all
  {
  }
}
