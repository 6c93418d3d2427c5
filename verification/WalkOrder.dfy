// The walk over a share folder, exactly: which files the scanner visits, in which order and
// under which paths, read off the folders alone.

module WalkOrder {

  import opened Prelude
  import opened ShareScan

  /** A way down: the number of an entry in its folder, then one in the folder it names,
      and so on. */
  type Trail = seq<nat>

  /** A way down through folders that can be opened to a regular file, with nothing hidden
      on it, neither a folder nor the file. */
  predicate Leads(folders: Folders, id: nat, t: Trail)
    decreases |t|
  {
    && t != [] && id in folders && t[0] < |folders[id]| && !("." <= folders[id][t[0]].name)
    && match folders[id][t[0]].target
       case Regular(_) => |t| == 1
       case Folder(child) => Leads(folders, child, t[1..])
       case _ => false
  }

  /** The names of the entries on a way down. */
  function NamesOn(folders: Folders, id: nat, t: Trail): (names: seq<string>)
    requires Leads(folders, id, t)
    ensures |names| == |t|
    decreases |t|
  {
    var e := folders[id][t[0]];
    [e.name] + if e.target.Folder? then NamesOn(folders, e.target.id, t[1..]) else []
  }

  function SizeAt(folders: Folders, id: nat, t: Trail): int
    requires Leads(folders, id, t)
    decreases |t|
  {
    var e := folders[id][t[0]];
    if e.target.Folder? then SizeAt(folders, e.target.id, t[1..]) else e.target.size
  }

  /** The path with all these names in a row. */
  function Slashed(root: string, names: seq<string>): string {
    if names == [] then root else Slashed(root, names[..|names| - 1]) + "/" + names[|names| - 1]
  }

  /** The file under these names: the last is its own, the others spell its relative path,
      and all of them lead to it from the share folder. */
  predicate IsNamed(root: string, names: seq<string>, size: int, f: ScannedFile) {
    && names != []
    && f.fileName == names[|names| - 1] && f.relativePath == Spelled(names[..|names| - 1])
    && f.absolutePath == Slashed(root, names) && f.fileSize == size
  }

  /** Earlier entries first, and everything in a folder where the folder stands. */
  predicate Precedes(a: Trail, b: Trail)
    decreases |a|
  {
    a != [] && b != [] && (a[0] < b[0] || (a[0] == b[0] && Precedes(a[1..], b[1..])))
  }

  ghost predicate Ascending(trails: seq<Trail>) {
    forall i, j | 0 <= i < j < |trails| :: Precedes(trails[i], trails[j])
  }

  /** These trails, which begin below this number, are those of the visits, one for one. */
  ghost predicate Lists(folders: Folders, id: nat, n: nat, root: string, above: seq<string>, trails: seq<Trail>,
                        visits: seq<ScannedFile>)
  {
    && |trails| == |visits| && Ascending(trails)
    && (forall t :: t in trails <==>
          Leads(folders, id, t) && t[0] < n && |above| + |t| <= MAXIMUM_SCAN_DEPTH + 1)
    && (forall k | 0 <= k < |trails| ::
          Leads(folders, id, trails[k])
          && IsNamed(root, above + NamesOn(folders, id, trails[k]), SizeAt(folders, id, trails[k]), visits[k]))
  }

  function Under(i: nat, trails: seq<Trail>): (r: seq<Trail>)
    ensures |r| == |trails| && forall k | 0 <= k < |r| :: r[k] == [i] + trails[k]
  {
    seq(|trails|, k requires 0 <= k < |trails| => [i] + trails[k])
  }

  lemma SlashedSnoc(root: string, above: seq<string>, name: string)
    ensures Slashed(root, above + [name]) == Below(Slashed(root, above), name)
    ensures Spelled(above + [name]) == ChildPath(Spelled(above), name)
  {
    assert (above + [name])[..|above|] == above;
  }

  // ----- The walk -----

  lemma {:induction false} FolderLists(folders: Folders, id: nat, root: string, above: seq<string>)
    returns (trails: seq<Trail>)
    requires |above| <= MAXIMUM_SCAN_DEPTH + 1
    ensures Lists(folders, id, if id in folders then |folders[id]| else 0, root, above, trails,
                  Visits(folders, id, Slashed(root, above), Spelled(above), |above|))
    decreases Levels(|above|) + 1, 0
  {
    trails := [];
    if |above| <= MAXIMUM_SCAN_DEPTH && id in folders {
      trails := EntriesList(folders, id, |folders[id]|, root, above);
      assert folders[id][..|folders[id]|] == folders[id];
    }
  }

  lemma {:induction false} EntriesList(folders: Folders, id: nat, n: nat, root: string, above: seq<string>)
    returns (trails: seq<Trail>)
    requires |above| <= MAXIMUM_SCAN_DEPTH && id in folders && n <= |folders[id]|
    ensures Lists(folders, id, n, root, above, trails,
                  VisitsOf(folders, folders[id][..n], Slashed(root, above), Spelled(above), |above|))
    decreases Levels(|above|), n
  {
    hide Lists, EntryListed, EntryVisits, VisitsOf, Slashed, Spelled;
    if n == 0 {
      trails := [];
      NothingListed(folders, id, root, above);
    } else {
      var before := EntriesList(folders, id, n - 1, root, above);
      var here := EntryLists(folders, id, n - 1, root, above);
      trails := before + here;
      EntriesSnoc(folders, folders[id], Slashed(root, above), Spelled(above), |above|, n - 1);
      ListsOn(folders, id, n - 1, root, above, before, here,
              VisitsOf(folders, folders[id][..n - 1], Slashed(root, above), Spelled(above), |above|),
              EntryVisits(folders, folders[id][n - 1], Slashed(root, above), Spelled(above), |above|));
    }
  }

  lemma NothingListed(folders: Folders, id: nat, root: string, above: seq<string>)
    requires |above| <= MAXIMUM_SCAN_DEPTH && id in folders
    ensures Lists(folders, id, 0, root, above, [],
                  VisitsOf(folders, folders[id][..0], Slashed(root, above), Spelled(above), |above|))
  {
    assert folders[id][..0] == [];
  }

  /** What one entry gives rise to. */
  ghost predicate EntryListed(folders: Folders, id: nat, i: nat, root: string, above: seq<string>, trails: seq<Trail>,
                              visits: seq<ScannedFile>)
  {
    && |trails| == |visits| && Ascending(trails)
    && (forall t :: t in trails <==>
          Leads(folders, id, t) && t[0] == i && |above| + |t| <= MAXIMUM_SCAN_DEPTH + 1)
    && (forall k | 0 <= k < |trails| ::
          Leads(folders, id, trails[k])
          && IsNamed(root, above + NamesOn(folders, id, trails[k]), SizeAt(folders, id, trails[k]), visits[k]))
  }

  lemma ListsOn(folders: Folders, id: nat, i: nat, root: string, above: seq<string>, before: seq<Trail>,
                here: seq<Trail>, visitsBefore: seq<ScannedFile>, visitsHere: seq<ScannedFile>)
    requires Lists(folders, id, i, root, above, before, visitsBefore)
    requires EntryListed(folders, id, i, root, above, here, visitsHere)
    ensures Lists(folders, id, i + 1, root, above, before + here, visitsBefore + visitsHere)
  {
    hide IsNamed, NamesOn, SizeAt, Precedes, Ascending;
    EarlierEntriesFirst(before, here, i);
  }

  lemma EarlierEntriesFirst(before: seq<Trail>, here: seq<Trail>, i: nat)
    requires Ascending(before) && Ascending(here)
    requires (forall t | t in before :: t != [] && t[0] < i) && (forall t | t in here :: t != [] && t[0] == i)
    ensures Ascending(before + here)
  {
    var trails := before + here;
    forall a, b | 0 <= a < b < |trails| ensures Precedes(trails[a], trails[b]) {
      if a < |before| <= b {
        assert before[a] in before && here[b - |before|] in here;
      }
    }
  }

  lemma {:induction false} EntryLists(folders: Folders, id: nat, i: nat, root: string, above: seq<string>)
    returns (trails: seq<Trail>)
    requires |above| <= MAXIMUM_SCAN_DEPTH && id in folders && i < |folders[id]|
    ensures EntryListed(folders, id, i, root, above, trails,
                        EntryVisits(folders, folders[id][i], Slashed(root, above), Spelled(above), |above|))
    decreases Levels(|above|), 0
  {
    var e := folders[id][i];
    if !IsHidden(e.name) && e.target.Folder? {
      hide Lists, EntryListed;
      SlashedSnoc(root, above, e.name);
      var inside := FolderLists(folders, e.target.id, root, above + [e.name]);
      trails := Under(i, inside);
      FolderEntryListed(folders, id, i, root, above, inside,
                        Visits(folders, e.target.id, Slashed(root, above + [e.name]), Spelled(above + [e.name]),
                               |above| + 1));
    } else if !IsHidden(e.name) && e.target.Regular? {
      trails := [[i]];
      FileEntryListed(folders, id, i, root, above);
    } else {
      trails := [];
      NothingUnder(folders, id, i);
    }
  }

  lemma NothingUnder(folders: Folders, id: nat, i: nat)
    requires id in folders && i < |folders[id]|
    requires IsHidden(folders[id][i].name) || !(folders[id][i].target.Folder? || folders[id][i].target.Regular?)
    ensures forall t: Trail :: !(Leads(folders, id, t) && t[0] == i)
  {
  }

  lemma FileEntryListed(folders: Folders, id: nat, i: nat, root: string, above: seq<string>)
    requires |above| <= MAXIMUM_SCAN_DEPTH && id in folders && i < |folders[id]|
    requires !IsHidden(folders[id][i].name) && folders[id][i].target.Regular?
    ensures EntryListed(folders, id, i, root, above, [[i]],
                        EntryVisits(folders, folders[id][i], Slashed(root, above), Spelled(above), |above|))
  {
    hide NamesOn, SizeAt, Slashed, Spelled, Precedes;
    var e := folders[id][i];
    OnlyItself(folders, id, i);
    LeadsToFile(folders, id, i);
    hide Leads;
    SlashedSnoc(root, above, e.name);
    assert (above + [e.name])[..|above|] == above;
  }

  lemma OnlyItself(folders: Folders, id: nat, i: nat)
    requires id in folders && i < |folders[id]|
    requires !IsHidden(folders[id][i].name) && folders[id][i].target.Regular?
    ensures forall t: Trail :: Leads(folders, id, t) && t[0] == i <==> t == [i]
  {
  }

  lemma LeadsToFile(folders: Folders, id: nat, i: nat)
    requires id in folders && i < |folders[id]|
    requires !IsHidden(folders[id][i].name) && folders[id][i].target.Regular?
    ensures Leads(folders, id, [i]) && NamesOn(folders, id, [i]) == [folders[id][i].name]
    ensures SizeAt(folders, id, [i]) == folders[id][i].target.size
  {
  }

  /** Going down into a folder puts its number in front of every way. */
  lemma LeadsUnder(folders: Folders, id: nat, i: nat, u: Trail)
    requires id in folders && i < |folders[id]| && !IsHidden(folders[id][i].name) && folders[id][i].target.Folder?
    ensures Leads(folders, id, [i] + u) <==> Leads(folders, folders[id][i].target.id, u)
    ensures Leads(folders, id, [i] + u) ==>
      && NamesOn(folders, id, [i] + u) == [folders[id][i].name] + NamesOn(folders, folders[id][i].target.id, u)
      && SizeAt(folders, id, [i] + u) == SizeAt(folders, folders[id][i].target.id, u)
      && folders[id][i].target.id in folders && u != [] && u[0] < |folders[folders[id][i].target.id]|
  {
    assert ([i] + u)[1..] == u;
  }

  lemma UnderMembers(i: nat, inside: seq<Trail>, t: Trail)
    ensures t in Under(i, inside) <==> t != [] && t[0] == i && t[1..] in inside
  {
    var trails := Under(i, inside);
    if t in trails {
      var k :| 0 <= k < |trails| && trails[k] == t;
      assert t[1..] == inside[k];
    }
    if t != [] && t[0] == i && t[1..] in inside {
      var k :| 0 <= k < |inside| && inside[k] == t[1..];
      assert trails[k] == t;
    }
  }

  lemma UnderAscending(i: nat, inside: seq<Trail>)
    requires Ascending(inside)
    ensures Ascending(Under(i, inside))
  {
    var trails := Under(i, inside);
    forall a, b | 0 <= a < b < |trails| ensures Precedes(trails[a], trails[b]) {
      assert trails[a][1..] == inside[a] && trails[b][1..] == inside[b];
    }
  }

  lemma FolderEntryListed(folders: Folders, id: nat, i: nat, root: string, above: seq<string>, inside: seq<Trail>,
                          visits: seq<ScannedFile>)
    requires id in folders && i < |folders[id]|
    requires var e := folders[id][i];
      && !IsHidden(e.name) && e.target.Folder?
      && Lists(folders, e.target.id, if e.target.id in folders then |folders[e.target.id]| else 0, root,
               above + [e.name], inside, visits)
    ensures EntryListed(folders, id, i, root, above, Under(i, inside), visits)
  {
    hide IsNamed, Leads, NamesOn, SizeAt, Precedes;
    var e := folders[id][i];
    var trails := Under(i, inside);
    UnderAscending(i, inside);
    forall t: Trail
      ensures Leads(folders, id, t) ==> t != []
      ensures t in trails <==>
        t != [] && Leads(folders, id, t) && t[0] == i && |above| + |t| <= MAXIMUM_SCAN_DEPTH + 1
    {
      LeadsSomewhere(folders, id, t);
      UnderMembers(i, inside, t);
      if t != [] && t[0] == i {
        assert [i] + t[1..] == t;
        LeadsUnder(folders, id, i, t[1..]);
      }
    }
    forall k | 0 <= k < |trails|
      ensures Leads(folders, id, trails[k])
      ensures IsNamed(root, above + NamesOn(folders, id, trails[k]), SizeAt(folders, id, trails[k]), visits[k])
    {
      assert inside[k] in inside;
      LeadsUnder(folders, id, i, inside[k]);
      assert above + ([e.name] + NamesOn(folders, e.target.id, inside[k]))
          == (above + [e.name]) + NamesOn(folders, e.target.id, inside[k]);
    }
  }

  lemma LeadsSomewhere(folders: Folders, id: nat, t: Trail)
    ensures Leads(folders, id, t) ==> t != []
  {
  }

  /** These trails are all ways down of at most 33 entries, in the order of the folders,
      and the visits are the files they lead to, one for one. */
  ghost predicate IsWalk(folders: Folders, id: nat, root: string, trails: seq<Trail>, visits: seq<ScannedFile>) {
    && |trails| == |visits| && Ascending(trails)
    && (forall t :: t in trails <==> Leads(folders, id, t) && |t| <= MAXIMUM_SCAN_DEPTH + 1)
    && (forall k | 0 <= k < |trails| ::
          Leads(folders, id, trails[k])
          && IsNamed(root, NamesOn(folders, id, trails[k]), SizeAt(folders, id, trails[k]), visits[k]))
  }

  lemma ListedFromRoot(folders: Folders, id: nat, root: string, trails: seq<Trail>, visits: seq<ScannedFile>)
    requires Lists(folders, id, if id in folders then |folders[id]| else 0, root, [], trails, visits)
    ensures IsWalk(folders, id, root, trails, visits)
  {
    hide IsNamed, SizeAt, Precedes;
    assert forall t | Leads(folders, id, t) :: [] + NamesOn(folders, id, t) == NamesOn(folders, id, t);
  }

  /** The walk is exact: its visits are, one for one and in the order of the folders, the
      ways down of at most 33 entries to a regular file with nothing hidden on them; each
      visit has the names on its way, and the size of the file at its end. */
  lemma WalkIsExact(folders: Folders, id: nat, root: string)
    ensures exists trails :: IsWalk(folders, id, root, trails, Visits(folders, id, root, "", 0))
  {
    hide Visits, IsWalk, Lists;
    var trails := FolderLists(folders, id, root, []);
    assert Slashed(root, []) == root && Spelled([]) == "";
    ListedFromRoot(folders, id, root, trails, Visits(folders, id, root, "", 0));
  }

  /** Which files: a file is visited if and only if there is such a way down to it. */
  lemma VisitedIfReachable(folders: Folders, id: nat, root: string, f: ScannedFile)
    ensures f in Visits(folders, id, root, "", 0) <==>
      exists t :: Leads(folders, id, t) && |t| <= MAXIMUM_SCAN_DEPTH + 1
        && IsNamed(root, NamesOn(folders, id, t), SizeAt(folders, id, t), f)
  {
    hide Visits, NamesOn, SizeAt, IsNamed, Precedes, Leads;
    WalkIsExact(folders, id, root);
    var visits := Visits(folders, id, root, "", 0);
    var trails :| IsWalk(folders, id, root, trails, visits);
    if f in visits {
      var k :| 0 <= k < |visits| && visits[k] == f;
      assert trails[k] in trails;
    }
    if t :| Leads(folders, id, t) && |t| <= MAXIMUM_SCAN_DEPTH + 1
            && IsNamed(root, NamesOn(folders, id, t), SizeAt(folders, id, t), f) {
      assert t in trails;
      var k :| 0 <= k < |trails| && trails[k] == t;
      OneFile(root, NamesOn(folders, id, t), SizeAt(folders, id, t), f, visits[k]);
    }
  }

  lemma OneFile(root: string, names: seq<string>, size: int, f: ScannedFile, g: ScannedFile)
    requires IsNamed(root, names, size, f) && IsNamed(root, names, size, g)
    ensures f == g
  {
  }
}
