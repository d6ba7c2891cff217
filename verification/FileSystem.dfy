/**
 The application volume: directory entries that share inodes through hard links, and the single file
 operations of the publisher with what its readers notice of them.
 */
module FileSystem {
  import opened Common
  import opened Publication

  /** A path under a temporary directory whose name starts with `prefix`. */
  predicate Temporary(p: Path, directory: string, prefix: string) {
    (p.Staged? || p.Pending?) && p.directory == directory && prefix <= p.temp
  }

  /** What readers see of directory entries and inodes. */
  function ViewOf(names: map<Path, nat>, inodes: map<nat, File>): View {
    map p | p in names && Visible(p) && names[p] in inodes :: inodes[names[p]]
  }

  predicate IsStaged(p: Path, directory: string, temp: string) {
    p.Staged? && p.directory == directory && p.temp == temp
  }

  /** Exactly the files of `tree` are staged in one temporary directory. */
  ghost predicate Stages(names: map<Path, nat>, inodes: map<nat, File>, directory: string, temp: string, tree: map<Rel, File>) {
    forall rel {:trigger Staged(directory, temp, rel)} ::
      && (Staged(directory, temp, rel) in names <==> rel in tree)
      && (rel in tree ==> names[Staged(directory, temp, rel)] in inodes && inodes[names[Staged(directory, temp, rel)]] == tree[rel])
  }

  /** The staging directory renamed to version `k`. */
  function Moved(names: map<Path, nat>, directory: string, temp: string, k: Key): map<Path, nat> {
    (map p | p in names && !IsStaged(p, directory, temp) :: names[p])
    + (map q | q in (set p | p in names && IsStaged(p, directory, temp) :: InVersion(k, p.rel))
               && q.InVersion? && Staged(directory, temp, q.rel) in names :: names[Staged(directory, temp, q.rel)])
  }

  lemma MovedAt(names: map<Path, nat>, directory: string, temp: string, k: Key, rel: Rel)
    requires InVersion(k, rel) !in names
    ensures InVersion(k, rel) in Moved(names, directory, temp, k) <==> Staged(directory, temp, rel) in names
    ensures InVersion(k, rel) in Moved(names, directory, temp, k) ==>
              Moved(names, directory, temp, k)[InVersion(k, rel)] == names[Staged(directory, temp, rel)]
  {
    var targets := set p | p in names && IsStaged(p, directory, temp) :: InVersion(k, p.rel);
    if Staged(directory, temp, rel) in names {
      assert IsStaged(Staged(directory, temp, rel), directory, temp);
      assert InVersion(k, rel) in targets;
    }
  }

  lemma MovedElsewhere(names: map<Path, nat>, directory: string, temp: string, k: Key, p: Path)
    requires !(p.InVersion? && p.key == k)
    ensures p in Moved(names, directory, temp, k) <==> p in names && !IsStaged(p, directory, temp)
    ensures p in Moved(names, directory, temp, k) ==> Moved(names, directory, temp, k)[p] == names[p]
  {
  }

  lemma MovedViewAt(names: map<Path, nat>, after: map<Path, nat>, inodes: map<nat, File>, directory: string, temp: string,
                    tree: map<Rel, File>, k: Key, p: Path)
    requires after == Moved(names, directory, temp, k) && Stages(names, inodes, directory, temp, tree)
    requires forall p | p in names :: names[p] in inodes
    requires p.InVersion? && p.key == k ==> p !in names
    ensures UnionAt(ViewOf(names, inodes), Placed(k, tree), ViewOf(after, inodes), p)
  {
    if p.InVersion? && p.key == k {
      MovedAt(names, directory, temp, k, p.rel);
      assert p in Placed(k, tree) <==> p.rel in tree;
    } else {
      MovedElsewhere(names, directory, temp, k, p);
    }
  }

  /** Renaming the staging directory adds the staged files as version `k` and changes nothing else. */
  lemma MovedView(names: map<Path, nat>, after: map<Path, nat>, inodes: map<nat, File>, directory: string, temp: string,
                  tree: map<Rel, File>, k: Key)
    requires after == Moved(names, directory, temp, k) && Stages(names, inodes, directory, temp, tree)
    requires forall p | p in names :: names[p] in inodes
    requires !Occupied(ViewOf(names, inodes), k)
    ensures ViewOf(after, inodes) == ViewOf(names, inodes) + Placed(k, tree)
  {
    var v, x, y := ViewOf(names, inodes), ViewOf(after, inodes), Placed(k, tree);
    FreeKey(names, inodes, k);
    forall p: Path ensures UnionAt(v, y, x, p) {
      MovedViewAt(names, after, inodes, directory, temp, tree, k, p);
    }
    UnionByPath(v, y, x);
  }

  predicate UnionAt(v: View, y: View, x: View, p: Path) {
    (p in x <==> p in v || p in y) && (p in x ==> x[p] == if p in y then y[p] else v[p])
  }

  lemma UnionByPath(v: View, y: View, x: View)
    requires forall p: Path {:trigger UnionAt(v, y, x, p)} :: UnionAt(v, y, x, p)
    ensures x == v + y
  {
    forall p: Path ensures p in x <==> p in v + y { assert UnionAt(v, y, x, p); }
    forall p | p in x ensures x[p] == (v + y)[p] { assert UnionAt(v, y, x, p); }
  }

  lemma FreeKey(names: map<Path, nat>, inodes: map<nat, File>, k: Key)
    requires forall p | p in names :: names[p] in inodes
    requires !Occupied(ViewOf(names, inodes), k)
    ensures forall p | p in names :: !(p.InVersion? && p.key == k)
  {
    forall p | p in names ensures !(p.InVersion? && p.key == k) {
      assert p in ViewOf(names, inodes) <==> Visible(p);
    }
  }

  class Volume {
    var names: map<Path, nat>
    var inodes: map<nat, File>
    var next: nat
    ghost var trace: seq<View>      // every view readers have met, the current one last

    ghost predicate Valid()
      reads this
    {
      && (forall p | p in names :: names[p] in inodes)
      && (forall i | i in inodes :: i < next)
      && trace != [] && trace[|trace| - 1] == Seen()
    }

    /** What readers see. */
    ghost function Seen(): View
      reads this
    {
      ViewOf(names, inodes)
    }

    constructor ()
      ensures Valid() && names == map[] && Seen() == map[] && trace == [map[]]
    {
      names, inodes, next, trace := map[], map[], 0, [map[]];
    }

    predicate IsFile(p: Path)
      reads this
    {
      p in names
    }

    function Content(p: Path): File
      requires p in names && names[p] in inodes
      reads this
    {
      inodes[names[p]]
    }

    // ----- Single operations -----

    /** `os.link` into a temporary directory. */
    method Link(from: Path, to: Path)
      requires Valid() && from in names && to !in names && !Visible(to)
      modifies this`names
      ensures Valid() && names == old(names)[to := old(names)[from]] && Seen() == old(Seen())
    {
      names := names[to := names[from]];
      assert Seen() == old(Seen());
    }

    /**
     Opening for writing truncates the inode behind an existing entry, whoever else links to it, and
     creates one otherwise. Readers notice exactly when a visible entry shares a rewritten inode.
     */
    method Write(to: Path, content: Content)
      requires Valid() && !Visible(to)
      modifies this
      ensures Valid()
      ensures names == if to in old(names) then old(names) else old(names)[to := old(next)]
      ensures inodes == old(inodes)[names[to] := File(content, if to in old(names) then old(inodes[names[to]].mode) else WRITABLE)]
      ensures trace == if Seen() == old(Seen()) then old(trace) else old(trace) + [Seen()]
      ensures Seen() == old(Seen()) <==>
              forall p | p in old(names) && Visible(p) && to in old(names) && old(names)[p] == old(names)[to] ::
                old(inodes[names[p]].content) == content
    {
      if to in names {
        inodes := inodes[names[to] := inodes[names[to]].(content := content)];
      } else {
        inodes := inodes[next := File(content, WRITABLE)];
        names := names[to := next];
        next := next + 1;
      }
      forall p | p in old(Seen()) ensures p in Seen() {}
      if forall p | p in old(names) && Visible(p) && to in old(names) && old(names)[p] == old(names)[to] ::
           old(inodes[names[p]].content) == content {
        assert Seen() == old(Seen());
      } else {
        ghost var p :| p in old(names) && Visible(p) && to in old(names) && old(names)[p] == old(names)[to]
                       && old(inodes[names[p]].content) != content;
        assert Seen()[p] != old(Seen())[p];
        trace := trace + [Seen()];
      }
    }

    method Chmod(p: Path, mode: Mode)
      requires Valid() && p in names && !Visible(p)
      requires forall q | q in names && q != p :: names[q] != names[p]
      modifies this`inodes
      ensures Valid() && inodes == old(inodes)[names[p] := old(inodes[names[p]]).(mode := mode)] && Seen() == old(Seen())
    {
      inodes := inodes[names[p] := inodes[names[p]].(mode := mode)];
      assert Seen() == old(Seen());
    }

    /** `copyfile` and `chmod` to a new temporary file. */
    method CopyFile(content: Content, mode: Mode, to: Path)
      requires Valid() && to !in names && !Visible(to)
      modifies this
      ensures Valid() && Seen() == old(Seen()) && trace == old(trace)
      ensures names == old(names)[to := old(next)] && old(next) !in old(inodes)
      ensures inodes == old(inodes)[old(next) := File(content, mode)]
    {
      Write(to, content);
      Chmod(to, mode);
    }

    method Unlink(p: Path)
      requires Valid() && p in names
      modifies this`names, this`trace
      ensures Valid() && names == old(names) - {p} && Seen() == old(Seen()) - {p}
      ensures trace == if Visible(p) then old(trace) + [Seen()] else old(trace)
    {
      names := names - {p};
      assert Seen() == old(Seen()) - {p};
      if Visible(p) {
        trace := trace + [Seen()];
      } else {
        assert Seen() == old(Seen());
      }
    }

    /** `rename` and `replace` of a temporary file to its final name. */
    method Rename(from: Path, to: Path)
      requires Valid() && from in names && !Visible(from) && Visible(to)
      modifies this`names, this`trace
      ensures Valid() && names == (old(names) - {from})[to := old(names)[from]]
      ensures Seen() == old(Seen())[to := inodes[old(names)[from]]] && trace == old(trace) + [Seen()]
    {
      names := (names - {from})[to := names[from]];
      assert Seen() == old(Seen())[to := inodes[old(names)[from]]];
      trace := trace + [Seen()];
    }

    /** Remove every temporary directory of this name prefix. */
    method ClearTemporary(directory: string, prefix: string)
      requires Valid()
      modifies this`names, this`trace
      ensures Valid() && Seen() == old(Seen()) && trace == old(trace)
      ensures names == map p | p in old(names) && !Temporary(p, directory, prefix) :: old(names)[p]
    {
      var todo := set p | p in names && Temporary(p, directory, prefix);
      while todo != {}
        invariant Valid() && Seen() == old(Seen()) && trace == old(trace)
        invariant todo == set p | p in names && Temporary(p, directory, prefix)
        invariant names == map p | p in old(names) && (p in todo || !Temporary(p, directory, prefix)) :: old(names)[p]
        decreases |todo|
      {
        var p :| p in todo;
        Unlink(p);
        todo := todo - {p};
        assert Seen() == old(Seen());
      }
    }

    /** `mkdtemp`: a temporary name nobody uses. */
    method FreshName(prefix: string) returns (temp: string)
      ensures prefix <= temp && forall p | p in names && !Visible(p) :: |p.temp| < |temp|
    {
      var todo, n: nat := names.Keys, 0;
      while todo != {}
        invariant todo <= names.Keys
        invariant forall p | p in names && p !in todo && !Visible(p) :: |p.temp| < n
        decreases |todo|
      {
        var p :| p in todo;
        todo := todo - {p};
        if !Visible(p) && n <= |p.temp| { n := |p.temp| + 1; }
      }
      temp := prefix + seq(n, i => 'x');
    }

    /** The final rename: one step makes the whole version visible, unless its directory holds files. */
    method MoveStaging(directory: string, temp: string, ghost tree: map<Rel, File>, k: Key) returns (ok: bool)
      requires Valid() && Stages(names, inodes, directory, temp, tree)
      modifies this`names, this`trace
      ensures Valid() && ok == !Occupied(old(Seen()), k)
      ensures !ok ==> names == old(names) && trace == old(trace)
      ensures ok ==> Seen() == old(Seen()) + Placed(k, tree) && trace == old(trace) + [Seen()]
      ensures forall p | p in names && !Visible(p) :: p in old(names)
      ensures forall p | p in old(names) && !Visible(p) && p !in names :: IsStaged(p, directory, temp)
    {
      ok := !exists p | p in names :: p.InVersion? && p.key == k;
      assert ok == !Occupied(Seen(), k) by {
        if !ok {
          var p :| p in names && p.InVersion? && p.key == k;
          assert p in Seen();
        }
      }
      if ok {
        MovedView(names, Moved(names, directory, temp, k), inodes, directory, temp, tree, k);
        forall p | !Visible(p) ensures p in Moved(names, directory, temp, k) <==> p in names && !IsStaged(p, directory, temp) {
          MovedElsewhere(names, directory, temp, k, p);
        }
        names := Moved(names, directory, temp, k);
        trace := trace + [Seen()];
      }
    }

    /** The rename that publishes a build record: both of its files at once, unless the directory holds some. */
    method MoveBuild(directory: string, temp: string, build: string) returns (ok: bool)
      requires Valid() && Pending(directory, temp, "inputs.tar.gz") in names && Pending(directory, temp, "build.json") in names
      modifies this`names, this`trace
      ensures Valid() && (ok <==> forall p | p in old(Seen()) :: !(p.InBuild? && p.build == build))
      ensures !ok ==> names == old(names) && trace == old(trace)
      ensures ok ==>
                && Seen() == old(Seen())[InBuild(build, "inputs.tar.gz") := inodes[old(names)[Pending(directory, temp, "inputs.tar.gz")]]]
                                        [InBuild(build, "build.json") := inodes[old(names)[Pending(directory, temp, "build.json")]]]
                && trace == old(trace) + [Seen()]
      ensures forall p | p in names && !Visible(p) :: p in old(names)
      ensures forall p | p in old(names) && !Visible(p) && p !in names :: p.Pending? && p.directory == directory && p.temp == temp
    {
      ok := forall p | p in names :: !(p.InBuild? && p.build == build);
      assert ok <==> forall p | p in Seen() :: !(p.InBuild? && p.build == build) by {
        assert forall p | p in names && p.InBuild? :: p in Seen();
      }
      if ok {
        var a, b := Pending(directory, temp, "inputs.tar.gz"), Pending(directory, temp, "build.json");
        names := (names - {a, b})[InBuild(build, "inputs.tar.gz") := names[a]][InBuild(build, "build.json") := names[b]];
        assert Seen() == old(Seen())[InBuild(build, "inputs.tar.gz") := inodes[old(names)[a]]]
                                    [InBuild(build, "build.json") := inodes[old(names)[b]]];
        trace := trace + [Seen()];
      }
    }
  }
}
