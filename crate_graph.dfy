/**
 * The crate graph of the frontend, kept abstract: crates with their root files, and a set of
 * named dependency edges that must stay acyclic.
 */
module CrateGraph {
  import opened Common
  import opened Fm

  /** A crate is either the package root, an ordinary (dependency) crate or the standard library. */
  datatype CrateId = Root(index: nat) | Crate(index: nat) | Stdlib(index: nat)

  type CrateName = string

  /** `dependent` may refer to `dependency` under `name`. */
  datatype Dependency = Dependency(dependent: CrateId, name: CrateName, dependency: CrateId)

  ghost predicate DependsOn(edges: set<Dependency>, a: CrateId, b: CrateId)
  {
    exists n :: Dependency(a, n, b) in edges
  }

  /** A path of length at least one step that returns to where it started. */
  ghost predicate IsCycle(edges: set<Dependency>, path: seq<CrateId>)
  {
    && |path| >= 2
    && path[0] == path[|path| - 1]
    && forall i :: 0 <= i < |path| - 1 ==> DependsOn(edges, path[i], path[i + 1])
  }

  ghost predicate Acyclic(edges: set<Dependency>)
  {
    forall path :: !IsCycle(edges, path)
  }

  /**
   * An edge out of a crate that nothing depends on yet cannot close a cycle: every cycle through
   * that crate would need an edge into it.
   */
  lemma {:induction false} EdgeFromFreshCrateKeepsAcyclic(
    edges: set<Dependency>, newCrate: CrateId, name: CrateName, target: CrateId)
    requires Acyclic(edges)
    requires forall d :: d in edges ==> d.dependency != newCrate
    requires target != newCrate
    ensures Acyclic(edges + {Dependency(newCrate, name, target)})
  {
    var edges' := edges + {Dependency(newCrate, name, target)};
    forall path | IsCycle(edges', path)
      ensures false
    {
      // no step of the cycle enters `newCrate` ...
      forall j | 1 <= j < |path|
        ensures path[j] != newCrate
      {
        assert DependsOn(edges', path[j - 1], path[j]);
      }
      // ... so no step leaves it either, and the whole cycle lies in `edges`
      forall i | 0 <= i < |path| - 1
        ensures DependsOn(edges, path[i], path[i + 1])
      {
        assert path[i] != newCrate by {
          if i == 0 {
            assert path[0] == path[|path| - 1];
          }
        }
        var n :| Dependency(path[i], n, path[i + 1]) in edges';
        assert Dependency(path[i], n, path[i + 1]) in edges;
      }
      assert IsCycle(edges, path);
    }
  }

  class Graph {
    /** Every crate and the id of its root file. */
    var crates: map<CrateId, FileId>
    var edges: set<Dependency>
    /** Index given to the next crate created. */
    var next: nat
    /** The standard-library crate, once one has been added. */
    var stdlib: Option<CrateId>

    ghost predicate Valid()
      reads this
    {
      && (forall c :: c in crates ==> c.index < next)
      && (forall d :: d in edges ==> d.dependent in crates && d.dependency in crates)
      && (stdlib.Some? ==> stdlib.value.Stdlib? && stdlib.value in crates)
      && Acyclic(edges)
    }

    constructor ()
      ensures Valid()
      ensures crates == map[] && edges == {} && next == 0 && stdlib == None
    {
      crates, edges, next, stdlib := map[], {}, 0, None;
      forall path
        ensures !IsCycle({}, path)
      {
        if |path| >= 2 {
          assert !DependsOn({}, path[0], path[1]);
        }
      }
    }

    /** Adds the standard-library crate rooted at `file`. */
    method AddStdlib(file: FileId) returns (id: CrateId)
      requires Valid()
      modifies this
      ensures Valid()
      ensures id == Stdlib(old(next)) && id !in old(crates)
      ensures crates == old(crates)[id := file] && edges == old(edges)
      ensures next == old(next) + 1 && stdlib == Some(id)
    {
      id := Stdlib(next);
      crates := crates[id := file];
      next := next + 1;
      stdlib := Some(id);
    }

    /** Adds the package's root crate rooted at `file`. */
    method AddCrateRoot(file: FileId) returns (id: CrateId)
      requires Valid()
      modifies this
      ensures Valid()
      ensures id == Root(old(next)) && id !in old(crates)
      ensures crates == old(crates)[id := file] && edges == old(edges)
      ensures next == old(next) + 1 && stdlib == old(stdlib)
    {
      id := Root(next);
      crates := crates[id := file];
      next := next + 1;
    }

    /** Adds an ordinary crate rooted at `file`. */
    method AddCrate(file: FileId) returns (id: CrateId)
      requires Valid()
      modifies this
      ensures Valid()
      ensures id == Crate(old(next)) && id !in old(crates)
      ensures crates == old(crates)[id := file] && edges == old(edges)
      ensures next == old(next) + 1 && stdlib == old(stdlib)
    {
      id := Crate(next);
      crates := crates[id := file];
      next := next + 1;
    }

    /** Adds the edge `from -name-> to`; a cyclic edge is refused by the precondition. */
    method AddDep(from: CrateId, name: CrateName, to: CrateId)
      requires Valid()
      requires from in crates && to in crates
      requires Acyclic(edges + {Dependency(from, name, to)})
      modifies this
      ensures Valid()
      ensures edges == old(edges) + {Dependency(from, name, to)}
      ensures crates == old(crates) && next == old(next) && stdlib == old(stdlib)
    {
      edges := edges + {Dependency(from, name, to)};
    }
  }
}
