/**
 * The relocator, `move_jar_files` in src/installer.py: select the immediate
 * children of a folder whose names end in ".jar" and move them, one by one,
 * into a destination folder.
 *
 * A folder is its presence flag and the names it holds, in the order a
 * directory listing gives them; moving a name takes it out of the source
 * listing and adds it to the destination.
 */
module Relocation {
  import opened Wrappers

  /** `name` ends in ".jar", compared character by character (so "A.JAR" does not). */
  predicate HasJarSuffix(name: string): (b: bool)
    ensures b <==> exists stem :: stem + ".jar" == name
  {
    var b := |name| >= 4 && name[|name| - 4..] == ".jar";
    assert b ==> name[..|name| - 4] + ".jar" == name;
    assert forall stem :: stem + ".jar" == name ==> (stem + ".jar")[|stem|..] == ".jar";
    b
  }

  /** The names of a listing that end in ".jar", in listing order. */
  function JarFiles(listing: seq<string>): (jars: seq<string>)
    ensures |jars| <= |listing|
    ensures forall x :: x in jars ==> x in listing && HasJarSuffix(x)
  {
    if listing == [] then []
    else (if HasJarSuffix(listing[0]) then [listing[0]] else []) + JarFiles(listing[1..])
  }

  /** The names of a listing that do not end in ".jar", in listing order. */
  function OtherFiles(listing: seq<string>): (others: seq<string>)
    ensures |others| <= |listing|
    ensures forall x :: x in others ==> x in listing && !HasJarSuffix(x)
  {
    if listing == [] then []
    else (if HasJarSuffix(listing[0]) then [] else [listing[0]]) + OtherFiles(listing[1..])
  }

  /** Every name of the listing with the suffix is selected. */
  lemma {:induction false} JarFilesComplete(listing: seq<string>, x: string)
    requires x in listing && HasJarSuffix(x)
    ensures x in JarFiles(listing)
  {
    if listing[0] != x {
      JarFilesComplete(listing[1..], x);
    }
  }

  /** Selection distributes over concatenation of listings, so it keeps listing order. */
  lemma {:induction false} JarFilesAppend(a: seq<string>, b: seq<string>)
    ensures JarFiles(a + b) == JarFiles(a) + JarFiles(b)
  {
    if a == [] {
      assert a + b == b;
    } else {
      assert (a + b)[1..] == a[1..] + b;
      JarFilesAppend(a[1..], b);
    }
  }

  /** A listing whose every name has the suffix is selected whole. */
  lemma {:induction false} JarFilesAll(listing: seq<string>)
    requires forall i :: 0 <= i < |listing| ==> HasJarSuffix(listing[i])
    ensures JarFiles(listing) == listing
  {
    if listing != [] {
      JarFilesAll(listing[1..]);
    }
  }

  /** A listing with no name having the suffix selects nothing. */
  lemma {:induction false} JarFilesNone(listing: seq<string>)
    requires forall i :: 0 <= i < |listing| ==> !HasJarSuffix(listing[i])
    ensures JarFiles(listing) == []
  {
    if listing != [] {
      JarFilesNone(listing[1..]);
    }
  }

  /** All names of a listing are distinct (a directory never lists a name twice). */
  predicate Distinct(s: seq<string>) {
    forall i, j :: 0 <= i < j < |s| ==> s[i] != s[j]
  }

  /** The selection of a listing without repeated names has no repeated names. */
  lemma {:induction false} JarFilesDistinct(listing: seq<string>)
    requires Distinct(listing)
    ensures Distinct(JarFiles(listing))
  {
    if listing != [] {
      var tail := listing[1..];
      assert Distinct(tail) by {
        forall i, j | 0 <= i < j < |tail| ensures tail[i] != tail[j] {
          assert tail[i] == listing[i + 1] && tail[j] == listing[j + 1];
        }
      }
      JarFilesDistinct(tail);
      assert listing[0] !in tail by {
        forall i | 0 <= i < |tail| ensures tail[i] != listing[0] {
          assert tail[i] == listing[i + 1];
        }
      }
    }
  }

  /** `s` with every occurrence of a name of `gone` left out, in order. */
  function Without(s: seq<string>, gone: seq<string>): (r: seq<string>)
    ensures forall x :: x in r <==> x in s && x !in gone
  {
    if s == [] then []
    else (if s[0] in gone then [] else [s[0]]) + Without(s[1..], gone)
  }

  /** Taking the selected names out of a listing leaves exactly the other names, in order. */
  lemma {:induction false} WithoutJarFiles(s: seq<string>, gone: seq<string>)
    requires forall x :: x in s ==> (x in gone <==> HasJarSuffix(x))
    ensures Without(s, gone) == OtherFiles(s)
  {
    if s != [] {
      WithoutJarFiles(s[1..], gone);
    }
  }

  /** Where moving the names one by one ends: the first name already at the destination, if any, and both listings. */
  datatype Moves = Moves(taken: Option<string>, source: seq<string>, dest: seq<string>)

  /**
   * Moves `names` from `source` to `dest` in order; a name the destination
   * already holds stops the moves (shutil.move raises), keeping those made.
   */
  function MoveEach(names: seq<string>, source: seq<string>, dest: seq<string>): (m: Moves)
  {
    if names == [] then Moves(None, source, dest)
    else if names[0] in dest then Moves(Some(names[0]), source, dest)
    else MoveEach(names[1..], Without(source, [names[0]]), dest + [names[0]])
  }

  /** The number of leading names that can be moved before one is found at the destination. */
  function MovablePrefix(names: seq<string>, dest: seq<string>): (k: nat)
    ensures k <= |names|
  {
    if names == [] || names[0] in dest then 0
    else 1 + MovablePrefix(names[1..], dest + [names[0]])
  }

  /**
   * `MovablePrefix` counts exactly the names that are not yet at the
   * destination when their turn comes; the next one, if any, is.
   */
  lemma {:induction false} MovablePrefixSpec(names: seq<string>, dest: seq<string>)
    ensures var k := MovablePrefix(names, dest);
      && (forall i :: 0 <= i < k ==> names[i] !in dest + names[..i])
      && (k < |names| ==> names[k] in dest + names[..k])
  {
    var k := MovablePrefix(names, dest);
    if names != [] && names[0] !in dest {
      var n, rest := names[0], names[1..];
      MovablePrefixSpec(rest, dest + [n]);
      forall i | 0 <= i < k ensures names[i] !in dest + names[..i] {
        if i > 0 {
          assert names[i] == rest[i - 1];
          assert dest + names[..i] == (dest + [n]) + rest[..i - 1];
        } else {
          assert dest + names[..0] == dest;
        }
      }
      if k < |names| {
        assert names[k] == rest[k - 1];
        assert dest + names[..k] == (dest + [n]) + rest[..k - 1];
      }
    } else {
      assert dest + names[..0] == dest;
    }
  }

  /** Distinct names none of which the destination holds can all be moved. */
  lemma {:induction false} AllMovable(names: seq<string>, dest: seq<string>)
    requires Distinct(names)
    requires forall x :: x in dest ==> x !in names
    ensures MovablePrefix(names, dest) == |names|
  {
    if names != [] {
      var n, rest := names[0], names[1..];
      assert n !in rest by {
        forall i | 0 <= i < |rest| ensures rest[i] != n {
          assert rest[i] == names[i + 1];
        }
      }
      assert Distinct(rest) by {
        forall i, j | 0 <= i < j < |rest| ensures rest[i] != rest[j] {
          assert rest[i] == names[i + 1] && rest[j] == names[j + 1];
        }
      }
      AllMovable(rest, dest + [n]);
    }
  }

  /**
   * What the moves do to the destination: the first `k` names are appended,
   * and the move stops at name `k` (already present) or after the last one.
   */
  lemma {:induction false} MoveEachDest(names: seq<string>, source: seq<string>, dest: seq<string>)
    ensures var k := MovablePrefix(names, dest);
      var m := MoveEach(names, source, dest);
      && m.dest == dest + names[..k]
      && (m.taken.None? <==> k == |names|)
      && (m.taken.Some? ==> k < |names| && m.taken.value == names[k])
  {
    if names == [] {
      assert dest + names[..0] == dest;
    } else if names[0] in dest {
      assert dest + names[..0] == dest;
    } else {
      var n, rest := names[0], names[1..];
      var source', dest' := Without(source, [n]), dest + [n];
      assert MoveEach(names, source, dest) == MoveEach(rest, source', dest');
      var k' := MovablePrefix(rest, dest');
      assert MovablePrefix(names, dest) == k' + 1;
      MoveEachDest(rest, source', dest');
      assert names[..k' + 1] == [n] + rest[..k'];
      assert dest + names[..k' + 1] == dest' + rest[..k'];
      assert k' + 1 < |names| ==> names[k' + 1] == rest[k'];
    }
  }

  /** What the moves do to the source: exactly the first `k` names are gone from it. */
  lemma {:induction false} MoveEachSource(names: seq<string>, source: seq<string>, dest: seq<string>)
    ensures MoveEach(names, source, dest).source == Without(source, names[..MovablePrefix(names, dest)])
  {
    if names == [] || names[0] in dest {
      assert names[..0] == [];
      WithoutNothing(source);
    } else {
      var n, rest := names[0], names[1..];
      MoveEachSource(rest, Without(source, [n]), dest + [n]);
      var k := MovablePrefix(names, dest);
      assert names[..k] == [n] + rest[..k - 1];
      WithoutNothingThen(source, n, rest[..k - 1]);
    }
  }

  /** Leaving out nothing keeps the listing. */
  lemma {:induction false} WithoutNothing(s: seq<string>)
    ensures Without(s, []) == s
  {
    if s != [] {
      WithoutNothing(s[1..]);
    }
  }

  /** Leaving out `n` and then the names of `g` is leaving out `[n] + g`. */
  lemma {:induction false} WithoutNothingThen(s: seq<string>, n: string, g: seq<string>)
    ensures Without(Without(s, [n]), g) == Without(s, [n] + g)
  {
    if s != [] {
      WithoutNothingThen(s[1..], n, g);
      if s[0] == n {
        assert Without(s, [n]) == Without(s[1..], [n]);
      } else {
        var w := Without(s[1..], [n]);
        assert Without(s, [n]) == [s[0]] + w;
        assert ([s[0]] + w)[1..] == w;
      }
    }
  }

  /** A folder: whether it exists and, if it does, the names it holds in listing order. */
  datatype FolderState = FolderState(present: bool, entries: seq<string>)

  /** A folder that does not exist holds nothing. */
  predicate WellFormed(f: FolderState) {
    !f.present ==> f.entries == []
  }

  /** What a relocation reports when it returns normally. */
  datatype MoveOutcome =
    | NoJarFiles              // nothing matched: a warning, the run goes on
    | Moved(names: seq<string>)

  /** The errors a relocation raises. */
  datatype MoveError =
    | SourceMissing           // the source folder does not exist
    | DestinationTaken(name: string)  // the destination already holds this name

  datatype Relocated = Relocated(result: Result<MoveOutcome, MoveError>, source: FolderState, dest: FolderState)

  /** The whole effect of `move_jar_files` on the two folders. */
  function RelocationEffect(source: FolderState, dest: FolderState): (r: Relocated)
    // only a missing source is reported as such
    ensures r.result == Err(SourceMissing) <==> !source.present
    // the destination exists afterwards exactly when it did before or some jar was selected
    ensures r.dest.present <==> dest.present || (source.present && exists x :: x in source.entries && HasJarSuffix(x))
    // a normal return reports every selected name as moved, or that there was none
    ensures r.result.Ok? ==> r.result.value == (if JarFiles(source.entries) == [] then NoJarFiles else Moved(JarFiles(source.entries)))
    ensures WellFormed(source) && WellFormed(dest) ==> WellFormed(r.source) && WellFormed(r.dest)
  {
    if !source.present then Relocated(Err(SourceMissing), source, dest)
    else
      var jars := JarFiles(source.entries);
      assert jars != [] ==> jars[0] in source.entries && HasJarSuffix(jars[0]);
      assert (exists x :: x in source.entries && HasJarSuffix(x)) ==> jars != [] by {
        if x :| x in source.entries && HasJarSuffix(x) { JarFilesComplete(source.entries, x); }
      }
      if jars == [] then Relocated(Ok(NoJarFiles), source, dest)
      else
        var m := MoveEach(jars, source.entries, dest.entries);
        Relocated(
          if m.taken.Some? then Err(DestinationTaken(m.taken.value)) else Ok(Moved(jars)),
          FolderState(true, m.source),
          FolderState(true, m.dest))
  }

  /** A missing source folder is an error and touches nothing. */
  lemma RelocateSourceMissing(source: FolderState, dest: FolderState)
    requires !source.present
    ensures RelocationEffect(source, dest) == Relocated(Err(SourceMissing), source, dest)
  {
  }

  /** No matching name: a normal return that neither creates the destination nor moves anything. */
  lemma RelocateNothingToMove(source: FolderState, dest: FolderState)
    requires source.present
    requires forall i :: 0 <= i < |source.entries| ==> !HasJarSuffix(source.entries[i])
    ensures RelocationEffect(source, dest) == Relocated(Ok(NoJarFiles), source, dest)
  {
    JarFilesNone(source.entries);
  }

  /**
   * When no selected name is already at the destination, the destination is
   * created and receives exactly the selected names, in listing order, and the
   * source keeps exactly the other names.
   */
  lemma RelocateMovesExactlyJarFiles(source: FolderState, dest: FolderState)
    requires source.present && Distinct(source.entries)
    requires JarFiles(source.entries) != []
    requires forall x :: x in dest.entries ==> x !in JarFiles(source.entries)
    ensures var r := RelocationEffect(source, dest);
      && r.result == Ok(Moved(JarFiles(source.entries)))
      && r.dest == FolderState(true, dest.entries + JarFiles(source.entries))
      && r.source == FolderState(true, OtherFiles(source.entries))
  {
    var jars := JarFiles(source.entries);
    JarFilesDistinct(source.entries);
    AllMovable(jars, dest.entries);
    var k := MovablePrefix(jars, dest.entries);
    assert jars[..k] == jars;
    MoveEachDest(jars, source.entries, dest.entries);
    MoveEachSource(jars, source.entries, dest.entries);
    forall x | x in source.entries ensures x in jars <==> HasJarSuffix(x) {
      if HasJarSuffix(x) { JarFilesComplete(source.entries, x); }
    }
    WithoutJarFiles(source.entries, jars);
  }

  /** Whatever happens, only selected names reach the destination, and the source loses nothing else. */
  lemma RelocateMovesOnlyJarFiles(source: FolderState, dest: FolderState)
    ensures var r := RelocationEffect(source, dest);
      && (forall x :: x in r.dest.entries ==> x in dest.entries || (x in source.entries && HasJarSuffix(x)))
      && (forall x :: x in source.entries && !HasJarSuffix(x) ==> x in r.source.entries)
      && (forall x :: x in r.source.entries ==> x in source.entries)
  {
    if source.present && JarFiles(source.entries) != [] {
      var jars := JarFiles(source.entries);
      var k := MovablePrefix(jars, dest.entries);
      MoveEachDest(jars, source.entries, dest.entries);
      MoveEachSource(jars, source.entries, dest.entries);
      forall x | x in jars[..k] ensures x in jars { }
    }
  }

  /** A folder of the file system. */
  class Folder {
    var present: bool
    var entries: seq<string>

    function State(): FolderState
      reads this
    {
      FolderState(present, entries)
    }

    constructor (present: bool, entries: seq<string>)
      requires present || entries == []
      ensures State() == FolderState(present, entries)
    {
      this.present := present;
      this.entries := entries;
    }
  }

  /**
   * `move_jar_files`: lists the source, and unless nothing matches, creates
   * the destination and moves each selected name, stopping at the first name
   * the destination already holds.
   */
  method MoveJarFiles(source: Folder, dest: Folder) returns (r: Result<MoveOutcome, MoveError>)
    requires WellFormed(source.State()) && WellFormed(dest.State())
    modifies source, dest
    ensures var spec := RelocationEffect(old(source.State()), old(dest.State()));
      r == spec.result && source.State() == spec.source && dest.State() == spec.dest
    ensures WellFormed(source.State()) && WellFormed(dest.State())
  {
    if !source.present {
      return Err(SourceMissing);
    }
    var jars := JarFiles(source.entries);
    if jars == [] {
      return Ok(NoJarFiles);
    }
    ghost var spec := MoveEach(jars, source.entries, dest.entries);
    assert jars[0] in source.entries;
    dest.present := true;
    var i := 0;
    r := Ok(Moved(jars));
    while i < |jars|
      invariant 0 <= i <= |jars|
      invariant source.present && dest.present
      invariant source == dest ==> i == 0 && source.entries == old(source.entries)
      invariant MoveEach(jars[i..], source.entries, dest.entries) == spec
      invariant r == Ok(Moved(jars))
    {
      var name := jars[i];
      if name in dest.entries {
        r := Err(DestinationTaken(name));
        break;
      }
      assert jars[i..][1..] == jars[i + 1..];
      source.entries := Without(source.entries, [name]);
      dest.entries := dest.entries + [name];
      i := i + 1;
    }
  }
}
