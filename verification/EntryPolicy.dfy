/**
 Path collisions between ZIP entries (src/intake/entry-policy.ts): the incremental check over the
 sets kept so far, against the pairwise rule it stands for. Unicode normalisation and lower-casing
 are the parameters `nfc` and `lower`.
 */
module EntryPolicy {
  import opened Prelude

  type Path = string

  datatype Entry = Entry(path: Path, directory: bool)

  /** The two string functions the check is built on. */
  datatype Folding = Folding(nfc: Path -> Path, lower: Path -> Path) {
    function Canonical(entry: Entry): Path {
      lower(nfc(entry.path))
    }
  }

  /** a names a proper ancestor directory of b. */
  predicate Above(a: Path, b: Path) {
    |a| < |b| && b[..|a|] == a && b[|a|] == '/'
  }

  // ----- The pairwise rule --------------------------------------------------------------------

  predicate Clash(f: Folding, a: Entry, b: Entry) {
    || f.Canonical(a) == f.Canonical(b)
    || (!a.directory && Above(f.Canonical(a), f.Canonical(b)))
    || (!b.directory && Above(f.Canonical(b), f.Canonical(a)))
  }

  /** No two entries name one path, and none lies below a regular file. */
  ghost predicate Compatible(f: Folding, entries: seq<Entry>) {
    forall i, j :: 0 <= i < j < |entries| ==> !Clash(f, entries[i], entries[j])
  }

  /** An entry that clashes with none of these. */
  ghost predicate Fits(f: Folding, entries: seq<Entry>, e: Entry) {
    forall i :: 0 <= i < |entries| ==> !Clash(f, entries[i], e)
  }

  lemma CompatibleStep(f: Folding, entries: seq<Entry>, k: nat)
    requires k < |entries| && Compatible(f, entries[..k])
    ensures Compatible(f, entries[..k + 1]) <==> Fits(f, entries[..k], entries[k])
    ensures !Fits(f, entries[..k], entries[k]) ==> !Compatible(f, entries)
  {
    hide Clash;
    var before, after := entries[..k], entries[..k + 1];
    assert forall i :: 0 <= i < k ==> after[i] == before[i] == entries[i];
    assert after[k] == entries[k];
  }

  // ----- The sets -------------------------------------------------------------------------------

  datatype Which = Exact | Normalized | Lowercase | Regular

  /** The string by which a set remembers an entry, if it does. */
  function Key(f: Folding, which: Which, e: Entry): Option<Path> {
    match which
    case Exact => Some(e.path)
    case Normalized => Some(f.nfc(e.path))
    case Lowercase => Some(f.Canonical(e))
    case Regular => if e.directory then None else Some(f.Canonical(e))
  }

  /** The set holds the keys of exactly these entries. */
  ghost predicate Keeps(f: Folding, which: Which, paths: set<Path>, entries: seq<Entry>) {
    && (forall i :: 0 <= i < |entries| && Key(f, which, entries[i]).Some? ==> Key(f, which, entries[i]).value in paths)
    && (forall p :: p in paths ==> exists i :: 0 <= i < |entries| && Key(f, which, entries[i]) == Some(p))
  }

  function Add(paths: set<Path>, key: Option<Path>): set<Path> {
    if key.Some? then paths + {key.value} else paths
  }

  lemma KeepsAdded(f: Folding, which: Which, paths: set<Path>, entries: seq<Entry>, e: Entry)
    requires Keeps(f, which, paths, entries)
    ensures Keeps(f, which, Add(paths, Key(f, which, e)), entries + [e])
  {
    hide Key;
    var more, all := Add(paths, Key(f, which, e)), entries + [e];
    assert all[|entries|] == e;
    forall p | p in more ensures exists i :: 0 <= i < |all| && Key(f, which, all[i]) == Some(p) {
      if p in paths {
        var i :| 0 <= i < |entries| && Key(f, which, entries[i]) == Some(p);
        assert all[i] == entries[i];
      }
    }
  }

  ghost predicate BelowAny(regular: set<Path>, path: Path) {
    exists a :: a in regular && Above(a, path)
  }

  ghost predicate AboveAny(lowercase: set<Path>, path: Path) {
    exists b :: b in lowercase && Above(path, b)
  }

  /** The tests on the sets are the pairwise rule; the exact and normalised ones add nothing to it. */
  lemma TestsAreTheRule(f: Folding, accepted: seq<Entry>, exact: set<Path>, normalized: set<Path>, lowercase: set<Path>,
                        regular: set<Path>, e: Entry)
    requires Keeps(f, Exact, exact, accepted) && Keeps(f, Normalized, normalized, accepted)
    requires Keeps(f, Lowercase, lowercase, accepted) && Keeps(f, Regular, regular, accepted)
    ensures Fits(f, accepted, e) <==>
            && e.path !in exact && f.nfc(e.path) !in normalized && f.Canonical(e) !in lowercase
            && !BelowAny(regular, f.Canonical(e)) && (e.directory || !AboveAny(lowercase, f.Canonical(e)))
  {
    hide Above;
    if e.path in exact || f.nfc(e.path) in normalized || f.Canonical(e) in lowercase
       || BelowAny(regular, f.Canonical(e))
      || (!e.directory && AboveAny(lowercase, f.Canonical(e))) {
      Collides(f, accepted, exact, normalized, lowercase, regular, e);
    } else {
      forall i | 0 <= i < |accepted| ensures !Clash(f, accepted[i], e) {
        assert Key(f, Lowercase, accepted[i]).value in lowercase;
        assert !accepted[i].directory ==> Key(f, Regular, accepted[i]).value in regular;
      }
    }
  }

  lemma Collides(f: Folding, accepted: seq<Entry>, exact: set<Path>, normalized: set<Path>, lowercase: set<Path>,
                 regular: set<Path>, e: Entry)
    requires Keeps(f, Exact, exact, accepted) && Keeps(f, Normalized, normalized, accepted)
    requires Keeps(f, Lowercase, lowercase, accepted) && Keeps(f, Regular, regular, accepted)
    requires e.path in exact || f.nfc(e.path) in normalized || f.Canonical(e) in lowercase
             || BelowAny(regular, f.Canonical(e))
             || (!e.directory && AboveAny(lowercase, f.Canonical(e)))
    ensures !Fits(f, accepted, e)
  {
    hide Above, Clash, Fits, Key, Keeps;
    if e.path in exact {
      var i := Remembered(f, Exact, exact, accepted, e.path);
      Refutes(f, accepted, i, e) by { ClashesByKey(f, accepted[i], Exact, e.path, e); }
    } else if f.nfc(e.path) in normalized {
      var i := Remembered(f, Normalized, normalized, accepted, f.nfc(e.path));
      Refutes(f, accepted, i, e) by { ClashesByKey(f, accepted[i], Normalized, f.nfc(e.path), e); }
    } else if f.Canonical(e) in lowercase {
      var i := Remembered(f, Lowercase, lowercase, accepted, f.Canonical(e));
      Refutes(f, accepted, i, e) by { ClashesByKey(f, accepted[i], Lowercase, f.Canonical(e), e); }
    } else if BelowAny(regular, f.Canonical(e)) {
      var a :| a in regular && Above(a, f.Canonical(e));
      var i := Remembered(f, Regular, regular, accepted, a);
      Refutes(f, accepted, i, e) by { ClashesByKey(f, accepted[i], Regular, a, e); }
    } else {
      var b :| b in lowercase && Above(f.Canonical(e), b);
      var i := Remembered(f, Lowercase, lowercase, accepted, b);
      Refutes(f, accepted, i, e) by { ClashesByKey(f, accepted[i], Lowercase, b, e); }
    }
  }

  lemma Remembered(f: Folding, which: Which, paths: set<Path>, entries: seq<Entry>, p: Path) returns (i: nat)
    requires Keeps(f, which, paths, entries) && p in paths
    ensures i < |entries| && Key(f, which, entries[i]) == Some(p)
  {
    i :| 0 <= i < |entries| && Key(f, which, entries[i]) == Some(p);
  }

  lemma Refutes(f: Folding, accepted: seq<Entry>, i: nat, e: Entry)
    requires i < |accepted| && Clash(f, accepted[i], e)
    ensures !Fits(f, accepted, e)
  {
  }

  /** What each test on the sets has found. */
  lemma ClashesByKey(f: Folding, a: Entry, which: Which, key: Path, e: Entry)
    requires Key(f, which, a) == Some(key)
    requires match which
             case Exact => key == e.path
             case Normalized => key == f.nfc(e.path)
             case Lowercase => key == f.Canonical(e) || (!e.directory && Above(f.Canonical(e), key))
             case Regular => Above(key, f.Canonical(e))
    ensures Clash(f, a, e)
  {
  }

  // ----- The incremental check ------------------------------------------------------------------

  class State {
    const folding: Folding
    var exact: set<Path>
    var lowercase: set<Path>
    var normalized: set<Path>
    var regular: set<Path>
    /** The entries accepted so far. */
    ghost var accepted: seq<Entry>

    constructor (folding: Folding)
      ensures Valid() && this.folding == folding && accepted == []
    {
      this.folding := folding;
      exact, lowercase, normalized, regular, accepted := {}, {}, {}, {}, [];
    }

    /** The sets are the images of the accepted entries. */
    ghost predicate Valid()
      reads this
    {
      && Keeps(folding, Exact, exact, accepted)
      && Keeps(folding, Normalized, normalized, accepted)
      && Keeps(folding, Lowercase, lowercase, accepted)
      && Keeps(folding, Regular, regular, accepted)
    }

    /** Some regular file accepted so far is a proper ancestor of this path. */
    method BelowRegular(path: Path) returns (found: bool)
      ensures found <==> BelowAny(regular, path)
    {
      var length := 0;
      while length < |path|
        invariant length <= |path|
        invariant forall a :: a in regular && Above(a, path) ==> |a| >= length
      {
        if path[length] == '/' && path[..length] in regular {
          assert Above(path[..length], path);
          return true;
        }
        length := length + 1;
      }
      found := false;
    }

    /** Some entry accepted so far lies below this path. */
    method HasDescendant(path: Path) returns (found: bool)
      ensures found <==> AboveAny(lowercase, path)
    {
      var todo := lowercase;
      while todo != {}
        invariant todo <= lowercase
        invariant forall b :: b in lowercase && Above(path, b) ==> b in todo
        decreases todo
      {
        var existing :| existing in todo;
        if Above(path, existing) {
          return true;
        }
        todo := todo - {existing};
      }
      found := false;
    }

    /** The collision part of inspectEntry: refuse, or accept and remember the entry. */
    method Inspect(entry: Entry) returns (ok: bool)
      requires Valid()
      modifies this
      ensures Valid()
      ensures ok <==> Fits(folding, old(accepted), entry)
      ensures accepted == if ok then old(accepted) + [entry] else old(accepted)
    {
      hide Keeps, Fits, BelowAny, AboveAny;
      TestsAreTheRule(folding, accepted, exact, normalized, lowercase, regular, entry);
      var normal := folding.nfc(entry.path);
      var canonical := folding.lower(normal);
      if entry.path in exact || canonical in lowercase || normal in normalized {
        return false;
      }
      var below := BelowRegular(canonical);
      if below {
        return false;
      }
      if !entry.directory {
        var above := HasDescendant(canonical);
        if above {
          return false;
        }
      }
      Remember(entry, normal, canonical);
      ok := true;
    }

    method Remember(entry: Entry, normal: Path, canonical: Path)
      requires Valid() && normal == folding.nfc(entry.path) && canonical == folding.lower(normal)
      modifies this
      ensures Valid() && accepted == old(accepted) + [entry]
    {
      hide Keeps;
      KeepsAdded(folding, Exact, exact, accepted, entry);
      KeepsAdded(folding, Normalized, normalized, accepted, entry);
      KeepsAdded(folding, Lowercase, lowercase, accepted, entry);
      KeepsAdded(folding, Regular, regular, accepted, entry);
      exact, lowercase, normalized := exact + {entry.path}, lowercase + {canonical}, normalized + {normal};
      if !entry.directory {
        regular := regular + {canonical};
      }
      accepted := accepted + [entry];
    }
  }

  /** A whole archive passes exactly when its entries are pairwise compatible. */
  method InspectAll(folding: Folding, entries: seq<Entry>) returns (ok: bool)
    ensures ok <==> Compatible(folding, entries)
  {
    hide Keeps, Fits, Compatible;
    var state := new State(folding);
    var k := 0;
    assert Compatible(folding, entries[..0]) by { NothingClashes(folding, entries[..0]); }
    while k < |entries|
      invariant k <= |entries| && state.Valid() && state.folding == folding
      invariant state.accepted == entries[..k] && Compatible(folding, entries[..k])
    {
      CompatibleStep(folding, entries, k);
      var fits := state.Inspect(entries[k]);
      if !fits {
        return false;
      }
      assert entries[..k + 1] == entries[..k] + [entries[k]];
      k := k + 1;
    }
    assert entries[..k] == entries;
    ok := true;
  }

  lemma NothingClashes(f: Folding, entries: seq<Entry>)
    requires entries == []
    ensures Compatible(f, entries)
  {
  }

  // ----- Order does not matter --------------------------------------------------------------------

  lemma {:induction false} Twice(s: seq<Entry>, i: nat, j: nat)
    requires i < j < |s| && s[i] == s[j]
    ensures multiset(s)[s[i]] >= 2
  {
    assert s == s[..j] + [s[j]] + s[j + 1..];
    assert s[..j][i] == s[i] && s[i] in multiset(s[..j]);
  }

  lemma {:induction false} TwoPlaces(s: seq<Entry>, e: Entry) returns (i: nat, j: nat)
    requires multiset(s)[e] >= 2
    ensures i < j < |s| && s[i] == s[j] == e
  {
    var n := |s| - 1;
    assert s == s[..n] + [s[n]];
    if s[n] == e {
      assert multiset(s[..n])[e] >= 1;
      assert e in s[..n];
      i :| 0 <= i < n && s[i] == e;
      j := n;
    } else {
      i, j := TwoPlaces(s[..n], e);
    }
  }

  lemma ClashIsSymmetric(f: Folding, a: Entry, b: Entry)
    ensures Clash(f, a, b) == Clash(f, b, a)
  {
  }

  /** Two archives with the same entries, in whatever order, pass or fail together. */
  lemma OrderDoesNotMatter(f: Folding, a: seq<Entry>, b: seq<Entry>)
    requires multiset(a) == multiset(b) && Compatible(f, a)
    ensures Compatible(f, b)
  {
    forall i, j | 0 <= i < j < |b| ensures !Clash(f, b[i], b[j]) {
      if b[i] == b[j] {
        Twice(b, i, j);
        var k, l := TwoPlaces(a, b[i]);
        assert !Clash(f, a[k], a[l]);
      } else {
        assert b[i] in multiset(b) && b[j] in multiset(b);
        assert b[i] in multiset(a) && b[j] in multiset(a);
        var k :| 0 <= k < |a| && a[k] == b[i];
        var l :| 0 <= l < |a| && a[l] == b[j];
        ClashIsSymmetric(f, a[k], a[l]);
        assert k != l;
      }
    }
  }
}
