/** internal/provisioner/exec.go: writeGcroot and the root-moving half of Realize as the code runs them, with
    every file system error. Gcroots says what holds when such calls interleave and die. */
module GcrootWriter {
  import opened FloxApi
  import opened Gcroots

  /** What a successful write leaves. */
  function Written(fs: Fs, base: Path, slot: Slot, storePath: string): Fs {
    (WithDirs(fs, Parent(base, slot), |Parent(base, slot)|) - {Tmp(base, slot)})[Gc(base, slot) := Link(storePath)]
  }

  /** The write cannot fail: nothing but directories above, nothing but links in the two places. */
  predicate CanWrite(fs: Fs, base: Path, slot: Slot) {
    && CanMkdir(fs, Parent(base, slot))
    && (Tmp(base, slot) in fs ==> fs[Tmp(base, slot)].Link?)
    && (Gc(base, slot) in fs ==> fs[Gc(base, slot)].Link?)
  }

  lemma OwnPathsApart(base: Path, ref: Ref, a: Tree, b: Tree)
    ensures Tmp(base, Slot(a, ref)) != Gc(base, Slot(b, ref))
    ensures a != b ==> Gc(base, Slot(a, ref)) != Gc(base, Slot(b, ref)) && Tmp(base, Slot(a, ref)) != Tmp(base, Slot(b, ref))
    ensures !(Gc(base, Slot(a, ref)) <= Parent(base, Slot(b, ref)))
    ensures !(Tmp(base, Slot(a, ref)) <= Parent(base, Slot(b, ref)))
  {
    assert (ref.folder + [ref.name + ".tmp"])[|ref.folder|] != Coordinates(ref)[|ref.folder|];
    PathsApart(base, {ref}, Slot(a, ref), Slot(b, ref));
  }

  class Host {
    var fs: Fs

    constructor (fs: Fs)
      ensures this.fs == fs
    {
      this.fs := fs;
    }

    method MkdirAll(path: Path) returns (ok: bool)
      modifies this
      ensures ok <==> CanMkdir(old(fs), path)
      ensures ok ==> fs == WithDirs(old(fs), path, |path|)
      ensures exists n :: 0 <= n <= |path| && fs == WithDirs(old(fs), path, n)
    {
      for n := 0 to |path|
        invariant fs == WithDirs(old(fs), path, n)
        invariant forall m :: 0 < m <= n && path[..m] in old(fs) ==> old(fs)[path[..m]] == Dir
      {
        WithDirsAdds(old(fs), path, n);
        var next := path[..n + 1];
        if next in fs {
          if fs[next] != Dir {
            return false;
          }
        } else {
          fs := fs[next := Dir];
        }
      }
      ok := true;
    }

    /** os.Remove: a link, or an empty directory. */
    method Remove(path: Path)
      modifies this
      ensures fs == if path in old(fs) && (old(fs)[path].Link? || forall p :: p in old(fs) ==> !(path < p)) then old(fs) - {path} else old(fs)
    {
      if path in fs && (fs[path].Link? || forall p :: p in fs ==> !(path < p)) {
        fs := fs - {path};
      }
    }

    method Symlink(target: string, path: Path) returns (ok: bool)
      modifies this
      ensures ok <==> CanSymlink(old(fs), path)
      ensures fs == if ok then old(fs)[path := Link(target)] else old(fs)
    {
      ok := |path| > 1 && path !in fs && path[..|path| - 1] in fs && fs[path[..|path| - 1]] == Dir;
      if ok {
        fs := fs[path := Link(target)];
      }
    }

    /** os.Rename of a link. */
    method Rename(from: Path, to: Path) returns (ok: bool)
      modifies this
      ensures ok <==> CanRename(old(fs), from, to)
      ensures fs == if ok then (old(fs) - {from})[to := old(fs)[from]] else old(fs)
    {
      ok := from in fs && fs[from].Link? && (to in fs ==> fs[to].Link?);
      if ok {
        fs := (fs - {from})[to := fs[from]];
      }
    }

    /** writeGcroot. It succeeds wherever a write can be made, whatever link an earlier attempt left under the
        temporary name; and where it fails, the root is as it was. */
    method WriteGcroot(base: Path, slot: Slot, storePath: string) returns (ok: bool)
      modifies this
      ensures CanWrite(old(fs), base, slot) ==> ok
      ensures ok ==> fs == Written(old(fs), base, slot, storePath)
      ensures ok ==> LinkAt(fs, Gc(base, slot), storePath) && Tmp(base, slot) !in fs
      ensures !ok ==> SameAt(old(fs), fs, Gc(base, slot))
      ensures forall p :: p != Gc(base, slot) && p != Tmp(base, slot) && !(p <= Parent(base, slot)) ==> SameAt(old(fs), fs, p)
    {
      var gc, tmp, parent := Gc(base, slot), Tmp(base, slot), Parent(base, slot);
      OwnPathsApart(base, slot.ref, slot.tree, slot.tree);
      forall n | 0 <= n <= |parent|
        ensures forall p :: !(p <= parent) ==> SameAt(old(fs), WithDirs(old(fs), parent, n), p)
      {
        WithDirsAdds(old(fs), parent, n);
      }
      WithDirsAdds(old(fs), parent, |parent|);
      ok := MkdirAll(parent);
      if !ok {
        return;
      }
      ghost var made := fs;
      assert parent[..|parent|] == parent && parent in made && made[parent] == Dir;
      assert tmp[..|tmp| - 1] == parent && parent != tmp;
      Remove(tmp);
      ok := Symlink(storePath, tmp);
      if !ok {
        return;
      }
      assert made - {tmp} == fs - {tmp};
      ok := Rename(tmp, gc);
      assert ok ==> fs == (made - {tmp})[gc := Link(storePath)];
    }

    /** Realize from its build on: nothing is rooted before build and add succeeded, the activation only after
        the env. None stands for a step that failed. */
    method Realize(base: Path, ref: Ref, built: Option<string>, added: Option<string>) returns (ok: bool)
      modifies this
      ensures ok ==> built.Some? && added.Some?
      ensures built.None? || added.None? ==> fs == old(fs)
      ensures built.Some? && added.Some? ==>
                var env, activation := Gc(base, Slot(EnvTree, ref)), Gc(base, Slot(ActivationTree, ref));
                && (SameAt(old(fs), fs, env) || (env in fs && fs[env] == Link(added.value)))
                && (SameAt(old(fs), fs, activation)
                    || (activation in fs && fs[activation] == Link(built.value) && env in fs && fs[env] == Link(added.value)))
                && (ok ==> env in fs && fs[env] == Link(added.value) && activation in fs && fs[activation] == Link(built.value))
      ensures built.Some? && added.Some? && CanWrite(old(fs), base, Slot(EnvTree, ref)) && CanWrite(old(fs), base, Slot(ActivationTree, ref)) ==> ok
      ensures ok ==>
                && LinkAt(fs, base + ["env"] + ref.folder + [ref.name], added.value)
                && LinkAt(fs, base + ["activation"] + ref.folder + [ref.name], built.value)
    {
      RootPaths(base, ref);
      if built.None? || added.None? {
        return false;
      }
      ok := WriteRoots(base, ref, added.value, built.value);
    }

    method WriteRoots(base: Path, ref: Ref, subtree: string, activation: string) returns (ok: bool)
      modifies this
      ensures var env, act := Gc(base, Slot(EnvTree, ref)), Gc(base, Slot(ActivationTree, ref));
        && (SameAt(old(fs), fs, env) || (env in fs && fs[env] == Link(subtree)))
        && (SameAt(old(fs), fs, act)
            || (act in fs && fs[act] == Link(activation) && env in fs && fs[env] == Link(subtree)))
        && (ok ==> env in fs && fs[env] == Link(subtree) && act in fs && fs[act] == Link(activation))
      ensures CanWrite(old(fs), base, Slot(EnvTree, ref)) && CanWrite(old(fs), base, Slot(ActivationTree, ref)) ==> ok
    {
      var first, second := Slot(EnvTree, ref), Slot(ActivationTree, ref);
      ghost var env, act := Gc(base, first), Gc(base, second);
      assert act != env && act != Tmp(base, first) && env != Tmp(base, second)
             && !(act <= Parent(base, first)) && !(env <= Parent(base, second)) by {
        OwnPathsApart(base, ref, EnvTree, ActivationTree);
        OwnPathsApart(base, ref, ActivationTree, EnvTree);
      }
      ok := WriteGcroot(base, first, subtree);
      assert SameAt(old(fs), fs, act);
      if !ok {
        return;
      }
      ghost var mid := fs;
      assert mid[env] == Link(subtree);
      StillWritable(old(fs), base, ref, subtree);
      ok := WriteGcroot(base, second, activation);
      assert SameAt(mid, fs, env);
    }
  }

  /** Writing the env root leaves the activation root writable. */
  lemma StillWritable(fs: Fs, base: Path, ref: Ref, storePath: string)
    ensures CanWrite(fs, base, Slot(EnvTree, ref)) && CanWrite(fs, base, Slot(ActivationTree, ref)) ==>
              CanWrite(Written(fs, base, Slot(EnvTree, ref), storePath), base, Slot(ActivationTree, ref))
  {
    var first, second := Slot(EnvTree, ref), Slot(ActivationTree, ref);
    OwnPathsApart(base, ref, EnvTree, ActivationTree);
    OwnPathsApart(base, ref, ActivationTree, EnvTree);
    WithDirsAdds(fs, Parent(base, first), |Parent(base, first)|);
    var parent := Parent(base, second);
    forall n | 0 < n <= |parent| ensures parent[..n] != Gc(base, first) && parent[..n] != Tmp(base, first) {
      assert parent[..n] <= parent;
    }
  }
}
