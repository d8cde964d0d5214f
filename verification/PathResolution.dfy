/** Resolving a reference from a physical parent directory: links, `..`, absolute targets and missing suffixes. */
module PathResolution {

  /** A physical path: the names from the root down. */
  type Path = seq<string>

  /** What looking at one name answers; `Refused` is any answer other than presence or absence. */
  datatype Entry = Missing | Refused | Directory | Link(absolute: bool, parts: seq<string>) | Other

  /** A file tree held still while a reference is resolved. */
  type Tree = Path -> Entry

  ghost predicate WellFormed(tree: Tree) {
    tree([]) == Directory && forall p: Path, x: string :: tree(p + [x]) != Missing ==> tree(p) == Directory
  }

  datatype Failure = NotPhysical | TooManyLinks | AccessRefused | TooDeep
  datatype Outcome = Resolved(path: Path, links: nat) | Failed(failure: Failure)

  const MAX_LINKS: nat := 40

  function Parent(p: Path): Path { if p == [] then [] else p[..|p| - 1] }

  // ---------- The reference: links are resolved where they stand, then the walk goes on ----------

  /** Non-strict resolution of `names` from `at`, with `links` already expanded out of `limit`. */
  function Resolve(tree: Tree, at: Path, names: seq<string>, links: nat, limit: nat): (r: Outcome)
    requires links <= limit
    ensures r.Resolved? ==> links <= r.links <= limit
    decreases limit - links, |names|
  {
    if names == [] then Resolved(at, links)
    else if names[0] == "." then Resolve(tree, at, names[1..], links, limit)
    else if names[0] == ".." then Resolve(tree, Parent(at), names[1..], links, limit)
    else
      match tree(at + [names[0]])
      case Refused => Failed(AccessRefused)
      case Link(absolute, parts) =>
        if links == limit then Failed(TooManyLinks)
        else
          var target := Resolve(tree, if absolute then [] else at, parts, links + 1, limit);
          if target.Failed? then target else Resolve(tree, target.path, names[1..], target.links, limit)
      case _ => Resolve(tree, at + [names[0]], names[1..], links, limit)
  }

  /** The certified parent may hold missing names, but no link and nothing other than directories. */
  function WalkParent(tree: Tree, at: Path, names: seq<string>): Outcome
    decreases |names|
  {
    if names == [] then Resolved(at, 0)
    else if names[0] == "." then WalkParent(tree, at, names[1..])
    else if names[0] == ".." then WalkParent(tree, Parent(at), names[1..])
    else
      match tree(at + [names[0]])
      case Refused => Failed(AccessRefused)
      case Missing => WalkParent(tree, at + [names[0]], names[1..])
      case Directory => WalkParent(tree, at + [names[0]], names[1..])
      case _ => Failed(NotPhysical)
  }

  function Reference(tree: Tree, parent: Path, absolute: bool, operand: seq<string>, limit: nat): Outcome {
    var start := if absolute then Resolved([], 0) else WalkParent(tree, [], parent);
    if start.Failed? then start else Resolve(tree, start.path, operand, 0, limit)
  }

  // ---------- The walk over one work list ----------

  /** A name still to visit, and whether it belongs to the physical parent. */
  datatype Part = Part(name: string, physical: bool)

  function Parts(names: seq<string>, physical: bool): (parts: seq<Part>)
    ensures |parts| == |names| && forall i :: 0 <= i < |names| ==> parts[i] == Part(names[i], physical)
  {
    seq(|names|, i requires 0 <= i < |names| => Part(names[i], physical))
  }

  /** What the walk computes: a link's parts are put in front of the rest. */
  function Walk(tree: Tree, at: Path, remaining: seq<Part>, links: nat, limit: nat): (r: Outcome)
    requires links <= limit
    ensures r.Resolved? ==> links <= r.links <= limit
    decreases limit - links, |remaining|
  {
    if remaining == [] then Resolved(at, links)
    else
      var part, rest := remaining[0], remaining[1..];
      if part.name == "." then Walk(tree, at, rest, links, limit)
      else if part.name == ".." then Walk(tree, Parent(at), rest, links, limit)
      else
        var child := at + [part.name];
        match tree(child)
        case Missing => Walk(tree, child, rest, links, limit)
        case Refused => Failed(AccessRefused)
        case Directory => Walk(tree, child, rest, links, limit)
        case Link(absolute, parts) =>
          if part.physical then Failed(NotPhysical)
          else if links == limit then Failed(TooManyLinks)
          else Walk(tree, if absolute then [] else at, Parts(parts, false) + rest, links + 1, limit)
        case Other => if part.physical then Failed(NotPhysical) else Walk(tree, child, rest, links, limit)
  }

  /** The directories the walk meets before it ends or fails. */
  ghost function Met(tree: Tree, at: Path, remaining: seq<Part>, links: nat, limit: nat): (met: set<Path>)
    requires links <= limit
    ensures forall p :: p in met ==> tree(p) == Directory
    decreases limit - links, |remaining|
  {
    if remaining == [] then {}
    else
      var part, rest := remaining[0], remaining[1..];
      if part.name == "." then Met(tree, at, rest, links, limit)
      else if part.name == ".." then Met(tree, Parent(at), rest, links, limit)
      else
        var child := at + [part.name];
        match tree(child)
        case Missing => Met(tree, child, rest, links, limit)
        case Refused => {}
        case Directory => {child} + Met(tree, child, rest, links, limit)
        case Link(absolute, parts) =>
          if part.physical || links == limit then {}
          else Met(tree, if absolute then [] else at, Parts(parts, false) + rest, links + 1, limit)
        case Other => if part.physical then {} else Met(tree, child, rest, links, limit)
  }

  /** The walk nests once for each directory met that is not open yet, and is refused when it needs to nest deeper than
      `room`. */
  ghost function Nested(tree: Tree, anchors: set<Path>, at: Path, remaining: seq<Part>, links: nat, limit: nat,
                        room: nat)
      : Outcome
    requires links <= limit
  {
    if |Met(tree, at, remaining, links, limit) - anchors| > room then Failed(TooDeep)
    else Walk(tree, at, remaining, links, limit)
  }

  /** Every existing directory on the way to `at` is held open. */
  ghost predicate Anchored(tree: Tree, anchors: set<Path>, at: Path) {
    forall n :: 0 <= n <= |at| && tree(at[..n]) == Directory ==> at[..n] in anchors
  }

  /** The work list of a reference. */
  function Work(parent: Path, absolute: bool, operand: seq<string>): seq<Part> {
    (if absolute then [] else Parts(parent, true)) + Parts(operand, false)
  }

  class Resolver {
    const tree: Tree
    var links: nat
    var anchors: set<Path>

    constructor (tree: Tree)
      ensures this.tree == tree && links == 0 && anchors == {}
    {
      this.tree := tree;
      links := 0;
      anchors := {};
    }

    ghost predicate Valid()
      reads this
    {
      && WellFormed(tree) && links <= MAX_LINKS
      && forall p :: p in anchors ==> tree(p) == Directory
    }

    /** Visits the work list; each newly met directory stays open until the rest of the walk is done, one call
        deeper. */
    method Visit(start: Path, work: seq<Part>, room: nat) returns (r: Outcome)
      requires Valid() && Anchored(tree, anchors, start)
      modifies this
      ensures Valid() && anchors == old(anchors)
      ensures r == Nested(tree, anchors, start, work, old(links), MAX_LINKS, room)
      ensures r.Resolved? ==> r.links == links
      decreases MAX_LINKS - links, |work|
    {
      hide Walk, Met, Nested, Anchored;
      var resolved, remaining := start, work;
      while remaining != []
        invariant Valid() && anchors == old(anchors) && Anchored(tree, anchors, resolved)
        invariant Nested(tree, anchors, resolved, remaining, links, MAX_LINKS, room) ==
                    Nested(tree, anchors, start, work, old(links), MAX_LINKS, room)
        invariant old(links) <= links && (links == old(links) ==> |remaining| <= |work|)
        decreases MAX_LINKS - links, |remaining|
      {
        if GoesInto(tree, resolved, remaining) {
          NestedInto(tree, anchors, resolved, remaining, links, MAX_LINKS, room);
        } else {
          NestedPast(tree, anchors, resolved, remaining, links, MAX_LINKS, room);
        }
        var part := remaining[0];
        remaining := remaining[1..];
        if part.name == "." { continue; }
        if part.name == ".." {
          AnchoredAbove(tree, anchors, resolved);
          resolved := Parent(resolved);
          continue;
        }
        var child := resolved + [part.name];
        ChildAnchored(tree, anchors, resolved, part.name);
        if resolved !in anchors {
          // Below something that is not a directory there is nothing to find.
          resolved := child;
          continue;
        }
        var entry := tree(child);
        if entry == Missing {
          resolved := child;
          continue;
        }
        if entry == Refused { return Failed(AccessRefused); }
        if part.physical && entry != Directory { return Failed(NotPhysical); }
        if entry == Directory {
          if child !in anchors {
            if room == 0 { return Failed(TooDeep); }
            anchors := anchors + {child};
            r := Visit(child, remaining, room - 1);
            anchors := anchors - {child};
            return;
          }
          resolved := child;
        } else if entry.Link? {
          if links + 1 > MAX_LINKS { return Failed(TooManyLinks); }
          links := links + 1;
          remaining := Parts(entry.parts, false) + remaining;
          if entry.absolute {
            RootAnchored(tree, anchors, resolved);
            resolved := [];
          }
        } else {
          resolved := child;
        }
      }
      NestedEnd(tree, anchors, resolved, links, MAX_LINKS, room);
      r := Resolved(resolved, links);
    }

    /** The whole resolution, from a physical parent for a relative operand. */
    method ResolvedReference(parent: Path, absolute: bool, operand: seq<string>, room: nat) returns (r: Outcome)
      requires WellFormed(tree) && links == 0 && anchors == {}
      modifies this
      ensures r == if |Met(tree, [], Work(parent, absolute, operand), 0, MAX_LINKS) - {[]}| > room then Failed(TooDeep)
                   else Reference(tree, parent, absolute, operand, MAX_LINKS)
    {
      var remaining := Work(parent, absolute, operand);
      anchors := {[]};
      r := Visit([], remaining, room);
      WalkIsReference(tree, parent, absolute, operand, MAX_LINKS);
    }
  }

  lemma OneDeeper(tree: Tree, anchors: set<Path>, child: Path, rest: seq<Part>, links: nat, limit: nat)
    requires links <= limit && child !in anchors
    ensures var met := Met(tree, child, rest, links, limit);
            |({child} + met) - anchors| == 1 + |met - (anchors + {child})|
  {
    var met := Met(tree, child, rest, links, limit);
    assert ({child} + met) - anchors == {child} + (met - (anchors + {child}));
  }

  lemma NestedEnd(tree: Tree, anchors: set<Path>, at: Path, links: nat, limit: nat, room: nat)
    requires links <= limit
    ensures Nested(tree, anchors, at, [], links, limit, room) == Resolved(at, links)
  {
    assert {} - anchors == {};
  }

  /** The next part of the work list is a directory to go into. */
  ghost predicate GoesInto(tree: Tree, at: Path, remaining: seq<Part>)
    requires remaining != []
  {
    remaining[0].name != "." && remaining[0].name != ".." && tree(at + [remaining[0].name]) == Directory
  }

  lemma NestedPast(tree: Tree, anchors: set<Path>, at: Path, remaining: seq<Part>, links: nat, limit: nat, room: nat)
    requires links <= limit && remaining != [] && !GoesInto(tree, at, remaining)
    ensures var part, rest := remaining[0], remaining[1..];
            var child := at + [part.name];
            var entry := tree(child);
            Nested(tree, anchors, at, remaining, links, limit, room) ==
              if part.name == "." then Nested(tree, anchors, at, rest, links, limit, room)
              else if part.name == ".." then Nested(tree, anchors, Parent(at), rest, links, limit, room)
              else if entry == Refused then Failed(AccessRefused)
              else if part.physical && (entry.Link? || entry == Other) then Failed(NotPhysical)
              else if entry.Link? && links == limit then Failed(TooManyLinks)
              else if entry.Link? then
                Nested(tree, anchors, if entry.absolute then [] else at, Parts(entry.parts, false) + rest, links + 1,
                       limit, room)
              else Nested(tree, anchors, child, rest, links, limit, room)
  {
    hide Parts, Parent;
    assert {} - anchors == {};
  }

  lemma NestedInto(tree: Tree, anchors: set<Path>, at: Path, remaining: seq<Part>, links: nat, limit: nat, room: nat)
    requires links <= limit && remaining != [] && GoesInto(tree, at, remaining)
    ensures var rest, child := remaining[1..], at + [remaining[0].name];
            Nested(tree, anchors, at, remaining, links, limit, room) ==
              if child in anchors then Nested(tree, anchors, child, rest, links, limit, room)
              else if room == 0 then Failed(TooDeep)
              else Nested(tree, anchors + {child}, child, rest, links, limit, room - 1)
  {
    var rest, child := remaining[1..], at + [remaining[0].name];
    var met := Met(tree, child, rest, links, limit);
    assert Met(tree, at, remaining, links, limit) == {child} + met;
    assert Walk(tree, at, remaining, links, limit) == Walk(tree, child, rest, links, limit);
    hide Met, Walk;
    if child in anchors {
      assert ({child} + met) - anchors == met - anchors;
    } else {
      OneDeeper(tree, anchors, child, rest, links, limit);
    }
  }

  lemma AnchoredAbove(tree: Tree, anchors: set<Path>, at: Path)
    requires Anchored(tree, anchors, at)
    ensures Anchored(tree, anchors, Parent(at))
  {
    var up := Parent(at);
    forall n | 0 <= n <= |up| && tree(up[..n]) == Directory ensures up[..n] in anchors {
      assert up[..n] == at[..n];
    }
  }

  /** Going down one name keeps the way anchored, provided the child is anchored if it is a directory. */
  lemma ChildAnchored(tree: Tree, anchors: set<Path>, at: Path, name: string)
    requires WellFormed(tree) && Anchored(tree, anchors, at)
    ensures at !in anchors ==> tree(at + [name]) == Missing
    ensures tree(at + [name]) != Directory ==> Anchored(tree, anchors, at + [name])
    ensures Anchored(tree, anchors + {at + [name]}, at + [name])
    ensures at + [name] in anchors ==> Anchored(tree, anchors, at + [name])
  {
    var child := at + [name];
    assert at[..|at|] == at;
    assert child[..|child|] == child;
    forall n | 0 <= n <= |at| ensures child[..n] == at[..n] {}
  }

  lemma RootAnchored(tree: Tree, anchors: set<Path>, at: Path)
    requires WellFormed(tree) && Anchored(tree, anchors, at)
    ensures Anchored(tree, anchors, [])
  {
    assert at[..0] == [];
  }

  // ---------- Splicing link targets into the work list is resolving them where they stand ----------

  lemma {:induction false} WalkAppend(tree: Tree, at: Path, a: seq<Part>, b: seq<Part>, links: nat, limit: nat)
    requires links <= limit
    ensures var first := Walk(tree, at, a, links, limit);
            Walk(tree, at, a + b, links, limit) ==
              if first.Failed? then first else Walk(tree, first.path, b, first.links, limit)
    decreases limit - links, |a|
  {
    if a == [] {
      assert a + b == b;
    } else {
      var part, rest := a[0], a[1..];
      var work := a + b;
      assert work[0] == part && work[1..] == rest + b;
      if part.name == "." {
        WalkAppend(tree, at, rest, b, links, limit);
      } else if part.name == ".." {
        WalkAppend(tree, Parent(at), rest, b, links, limit);
      } else {
        var child := at + [part.name];
        WalkAppend(tree, child, rest, b, links, limit);
        match tree(child)
        case Link(absolute, parts) =>
          if !part.physical && links < limit {
            var target := Parts(parts, false);
            assert target + (rest + b) == (target + rest) + b;
            WalkAppend(tree, if absolute then [] else at, target + rest, b, links + 1, limit);
          }
        case _ =>
      }
    }
  }

  lemma {:induction false} WalkIsResolve(tree: Tree, at: Path, names: seq<string>, links: nat, limit: nat)
    requires links <= limit
    ensures Walk(tree, at, Parts(names, false), links, limit) == Resolve(tree, at, names, links, limit)
    decreases limit - links, |names|
  {
    if names != [] {
      var name, rest := names[0], names[1..];
      assert Parts(names, false)[1..] == Parts(rest, false);
      if name == "." {
        WalkIsResolve(tree, at, rest, links, limit);
      } else if name == ".." {
        WalkIsResolve(tree, Parent(at), rest, links, limit);
      } else {
        WalkIsResolve(tree, at + [name], rest, links, limit);
        match tree(at + [name])
        case Link(absolute, parts) =>
          if links < limit {
            var start := if absolute then [] else at;
            WalkAppend(tree, start, Parts(parts, false), Parts(rest, false), links + 1, limit);
            WalkIsResolve(tree, start, parts, links + 1, limit);
            var target := Resolve(tree, start, parts, links + 1, limit);
            if target.Resolved? { WalkIsResolve(tree, target.path, rest, target.links, limit); }
          }
        case _ =>
      }
    }
  }

  lemma {:induction false} WalkIsParent(tree: Tree, at: Path, names: seq<string>, limit: nat)
    ensures Walk(tree, at, Parts(names, true), 0, limit) == WalkParent(tree, at, names)
    decreases |names|
  {
    if names != [] {
      var name, rest := names[0], names[1..];
      assert Parts(names, true)[1..] == Parts(rest, true);
      WalkIsParent(tree, at, rest, limit);
      WalkIsParent(tree, Parent(at), rest, limit);
      WalkIsParent(tree, at + [name], rest, limit);
    }
  }

  /** The one work list computes the reference, failures included. */
  lemma WalkIsReference(tree: Tree, parent: Path, absolute: bool, operand: seq<string>, limit: nat)
    ensures Walk(tree, [], Work(parent, absolute, operand), 0, limit) ==
              Reference(tree, parent, absolute, operand, limit)
  {
    var first := if absolute then [] else Parts(parent, true);
    WalkAppend(tree, [], first, Parts(operand, false), 0, limit);
    if !absolute { WalkIsParent(tree, [], parent, limit); }
    var start := Walk(tree, [], first, 0, limit);
    if start.Resolved? { WalkIsResolve(tree, start.path, operand, start.links, limit); }
    if !absolute { ParentExpandsNothing(tree, [], parent); }
  }

  lemma {:induction false} ParentExpandsNothing(tree: Tree, at: Path, names: seq<string>)
    ensures var r := WalkParent(tree, at, names); r.Resolved? ==> r.links == 0
    decreases |names|
  {
    if names != [] {
      ParentExpandsNothing(tree, at, names[1..]);
      ParentExpandsNothing(tree, Parent(at), names[1..]);
      ParentExpandsNothing(tree, at + [names[0]], names[1..]);
    }
  }

  // ---------- What the limit decides ----------

  /** A resolution that fits one limit is the resolution under every limit that the links it expands fit, and is
      refused under every other. */
  lemma {:induction false} LimitOnlyRefuses(tree: Tree, at: Path, names: seq<string>, links: nat, limit: nat,
                                            other: nat)
    requires links <= limit && links <= other && Resolve(tree, at, names, links, limit).Resolved?
    ensures var r := Resolve(tree, at, names, links, limit);
            Resolve(tree, at, names, links, other) == if r.links <= other then r else Failed(TooManyLinks)
    decreases limit - links, |names|
  {
    if names != [] {
      var name, rest := names[0], names[1..];
      if name == "." {
        LimitOnlyRefuses(tree, at, rest, links, limit, other);
      } else if name == ".." {
        LimitOnlyRefuses(tree, Parent(at), rest, links, limit, other);
      } else {
        match tree(at + [name])
        case Refused =>
        case Link(absolute, parts) =>
          var start := if absolute then [] else at;
          var target := Resolve(tree, start, parts, links + 1, limit);
          if links < other {
            LimitOnlyRefuses(tree, start, parts, links + 1, limit, other);
            if target.links <= other { LimitOnlyRefuses(tree, target.path, rest, target.links, limit, other); }
          }
        case _ => LimitOnlyRefuses(tree, at + [name], rest, links, limit, other);
      }
    }
  }

  // ---------- The result is a physical path ----------

  /** No name on the way is a link, a refusal, `.` or `..`. */
  ghost predicate Canonical(tree: Tree, p: Path) {
    && (forall n :: 0 <= n <= |p| ==> !tree(p[..n]).Link? && !tree(p[..n]).Refused?)
    && forall n :: 0 <= n < |p| ==> p[n] != "." && p[n] != ".."
  }

  lemma CanonicalAbove(tree: Tree, p: Path)
    requires Canonical(tree, p)
    ensures Canonical(tree, Parent(p))
  {
    var up := Parent(p);
    forall n | 0 <= n <= |up| ensures up[..n] == p[..n] {}
  }

  lemma CanonicalBelow(tree: Tree, p: Path, name: string)
    requires Canonical(tree, p) && name != "." && name != ".."
    requires !tree(p + [name]).Link? && !tree(p + [name]).Refused?
    ensures Canonical(tree, p + [name])
  {
    var child := p + [name];
    forall n | 0 <= n <= |child| ensures !tree(child[..n]).Link? && !tree(child[..n]).Refused? {
      if n <= |p| { assert child[..n] == p[..n]; } else { assert child[..n] == child; }
    }
  }

  lemma {:induction false} ResolveIsCanonical(tree: Tree, at: Path, names: seq<string>, links: nat, limit: nat)
    requires WellFormed(tree) && links <= limit && Canonical(tree, at)
    ensures var r := Resolve(tree, at, names, links, limit); r.Resolved? ==> Canonical(tree, r.path)
    decreases limit - links, |names|
  {
    if names != [] {
      var name, rest := names[0], names[1..];
      if name == "." {
        ResolveIsCanonical(tree, at, rest, links, limit);
      } else if name == ".." {
        CanonicalAbove(tree, at);
        ResolveIsCanonical(tree, Parent(at), rest, links, limit);
      } else {
        match tree(at + [name])
        case Refused =>
        case Link(absolute, parts) =>
          if links < limit {
            var start := if absolute then [] else at;
            assert Canonical(tree, []);
            ResolveIsCanonical(tree, start, parts, links + 1, limit);
            var target := Resolve(tree, start, parts, links + 1, limit);
            if target.Resolved? { ResolveIsCanonical(tree, target.path, rest, target.links, limit); }
          }
        case _ =>
          CanonicalBelow(tree, at, name);
          ResolveIsCanonical(tree, at + [name], rest, links, limit);
      }
    }
  }

  /** A canonical path names itself, with no link expanded. */
  lemma {:induction false} CanonicalResolvesToItself(tree: Tree, at: Path, names: seq<string>, limit: nat)
    requires Canonical(tree, at + names)
    ensures Resolve(tree, at, names, 0, limit) == Resolved(at + names, 0)
    decreases |names|
  {
    var whole := at + names;
    if names == [] {
      assert whole == at;
    } else {
      var child := at + [names[0]];
      assert whole[|at|] == names[0];
      assert whole[..|child|] == child;
      assert child + names[1..] == whole;
      CanonicalResolvesToItself(tree, child, names[1..], limit);
    }
  }

  /** Resolving what a reference resolved to, as an absolute operand, gives it back. */
  lemma ReferenceIdempotent(tree: Tree, parent: Path, absolute: bool, operand: seq<string>, limit: nat, other: nat,
                            again: Path)
    requires WellFormed(tree)
    ensures var r := Reference(tree, parent, absolute, operand, limit);
            r.Resolved? ==>
              Canonical(tree, r.path) && Reference(tree, again, true, r.path, other) == Resolved(r.path, 0)
  {
    var r := Reference(tree, parent, absolute, operand, limit);
    if r.Resolved? {
      var start := if absolute then Resolved([], 0) else WalkParent(tree, [], parent);
      assert Canonical(tree, []);
      if !absolute { ParentIsCanonical(tree, [], parent); }
      ResolveIsCanonical(tree, start.path, operand, 0, limit);
      assert [] + r.path == r.path;
      CanonicalResolvesToItself(tree, [], r.path, other);
    }
  }

  lemma {:induction false} ParentIsCanonical(tree: Tree, at: Path, names: seq<string>)
    requires Canonical(tree, at)
    ensures var r := WalkParent(tree, at, names); r.Resolved? ==> Canonical(tree, r.path)
    decreases |names|
  {
    if names != [] {
      var name, rest := names[0], names[1..];
      if name == "." {
        ParentIsCanonical(tree, at, rest);
      } else if name == ".." {
        CanonicalAbove(tree, at);
        ParentIsCanonical(tree, Parent(at), rest);
      } else {
        match tree(at + [name])
        case Missing => CanonicalBelow(tree, at, name); ParentIsCanonical(tree, at + [name], rest);
        case Directory => CanonicalBelow(tree, at, name); ParentIsCanonical(tree, at + [name], rest);
        case _ =>
      }
    }
  }
}
