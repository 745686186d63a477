/** internal/provisioner/exec.go: how a node's GC roots move, step by step.

    Several Realize calls run at once, one per env coordinate, and the process may die between any two
    file system operations. A path is the list of its components below the root of the host. */
module Gcroots {
  import opened FloxApi

  type Path = seq<string>

  datatype Entry = Dir | Link(target: string)

  type Fs = map<Path, Entry>

  /** A coordinate as the components of folder/name. */
  datatype Ref = Ref(folder: seq<string>, name: string)

  datatype Tree = EnvTree | ActivationTree

  datatype Slot = Slot(tree: Tree, ref: Ref)

  function Coordinates(ref: Ref): Path { ref.folder + [ref.name] }

  /** The directory of a slot's link: GcrootBase or its sibling "activation", then the folder. */
  function Parent(base: Path, slot: Slot): Path {
    base + [if slot.tree.EnvTree? then "env" else "activation"] + slot.ref.folder
  }

  /** gcrootPath and activationGcrootPath. */
  function Gc(base: Path, slot: Slot): Path { Parent(base, slot) + [slot.ref.name] }

  function Tmp(base: Path, slot: Slot): Path { Parent(base, slot) + [slot.ref.name + ".tmp"] }

  /** There is a link to the target at this path. */
  predicate LinkAt(fs: Fs, path: Path, target: string) { path in fs && fs[path] == Link(target) }

  /** Where the links are: the env subtree's below "env", which the plugin reads, the activation's beside it. */
  lemma RootPaths(base: Path, ref: Ref)
    ensures Gc(base, Slot(EnvTree, ref)) == base + ["env"] + ref.folder + [ref.name]
    ensures Gc(base, Slot(ActivationTree, ref)) == base + ["activation"] + ref.folder + [ref.name]
    ensures Tmp(base, Slot(EnvTree, ref)) == base + ["env"] + ref.folder + [ref.name + ".tmp"]
    ensures Tmp(base, Slot(ActivationTree, ref)) == base + ["activation"] + ref.folder + [ref.name + ".tmp"]
  {
  }

  // ---------- file system operations ----------

  /** MkdirAll of the first n components of a path. */
  function WithDirs(fs: Fs, path: Path, n: nat): Fs
    requires n <= |path|
  {
    if n == 0 then fs
    else
      var before := WithDirs(fs, path, n - 1);
      if path[..n] in before then before else before[path[..n] := Dir]
  }

  lemma {:induction false} WithDirsAdds(fs: Fs, path: Path, n: nat)
    requires n <= |path|
    ensures forall p :: p in WithDirs(fs, path, n) <==> p in fs || (0 < |p| <= n && p <= path)
    ensures forall p :: p in WithDirs(fs, path, n) ==> WithDirs(fs, path, n)[p] == if p in fs then fs[p] else Dir
  {
    if n > 0 {
      WithDirsAdds(fs, path, n - 1);
      forall p: Path ensures 0 < |p| <= n && p <= path <==> p == path[..n] || (0 < |p| <= n - 1 && p <= path) {
      }
    }
  }

  predicate CanMkdir(fs: Fs, path: Path) {
    forall n :: 0 < n <= |path| && path[..n] in fs ==> fs[path[..n]] == Dir
  }

  predicate CanSymlink(fs: Fs, path: Path) {
    |path| > 1 && path !in fs && path[..|path| - 1] in fs && fs[path[..|path| - 1]] == Dir
  }

  predicate CanRename(fs: Fs, from: Path, to: Path) {
    from in fs && fs[from].Link? && (to in fs ==> fs[to].Link?)
  }

  // ---------- the realizes of a node ----------

  datatype Phase =
    | Building
    | Adding(activation: string)
    | Making(tree: Tree, activation: string, subtree: string)
    | Clearing(tree: Tree, activation: string, subtree: string)
    | Linking(tree: Tree, activation: string, subtree: string)
    | Renaming(tree: Tree, activation: string, subtree: string)

  /** `attempt` numbers the Realize calls. */
  datatype Task = Task(attempt: nat, phase: Phase)

  /** The last rename onto a slot. */
  datatype Root = Root(attempt: nat, path: string)

  /** `roots`, `built` and `added` are history: the last rename of each slot and what each attempt built
      and added to the store. */
  datatype State = State(
    fs: Fs, tasks: map<Ref, Task>, next: nat, roots: map<Slot, Root>, built: map<nat, string>, added: map<nat, string>)

  datatype Step =
    | Start(ref: Ref)
    | Built(ref: Ref, activation: string)
    | Added(ref: Ref, subtree: string)
    | Mkdir(ref: Ref, upto: nat)
    | Clear(ref: Ref)
    | Symlink(ref: Ref)
    | Rename(ref: Ref)
    | Fail(ref: Ref)
    | Crash

  predicate Enabled(base: Path, refs: set<Ref>, s: State, l: Step) {
    if l.Crash? then true
    else if l.Start? then l.ref in refs && l.ref !in s.tasks
    else l.ref in s.tasks && TaskEnabled(base, s, s.tasks[l.ref].phase, l)
  }

  predicate TaskEnabled(base: Path, s: State, phase: Phase, l: Step) {
    match l
    case Built(_, _) => phase.Building?
    case Added(_, _) => phase.Adding?
    case Mkdir(ref, upto) =>
      && phase.Making? && upto <= |Parent(base, Slot(phase.tree, ref))| && CanMkdir(s.fs, Parent(base, Slot(phase.tree, ref)))
    case Clear(_) => phase.Clearing?
    case Symlink(ref) => phase.Linking? && CanSymlink(s.fs, Tmp(base, Slot(phase.tree, ref)))
    case Rename(ref) =>
      phase.Renaming? && CanRename(s.fs, Tmp(base, Slot(phase.tree, ref)), Gc(base, Slot(phase.tree, ref)))
    case Fail(_) => true
    case _ => false
  }

  function Linked(phase: Phase): string
    requires !phase.Building? && !phase.Adding?
  {
    if phase.tree.EnvTree? then phase.subtree else phase.activation
  }

  function Move(s: State, ref: Ref, phase: Phase): State
    requires ref in s.tasks
  {
    s.(tasks := s.tasks[ref := s.tasks[ref].(phase := phase)])
  }

  function Apply(base: Path, refs: set<Ref>, s: State, l: Step): State
    requires Enabled(base, refs, s, l)
  {
    match l
    case Start(ref) => s.(tasks := s.tasks[ref := Task(s.next, Building)], next := s.next + 1)
    case Crash => s.(tasks := map[])
    case Fail(ref) => s.(tasks := s.tasks - {ref})
    case _ => Advance(base, s, s.tasks[l.ref], l)
  }

  /** One step of a Realize: build, add the subtree, then root the subtree and after it the activation. */
  function Advance(base: Path, s: State, t: Task, l: Step): State
    requires !l.Start? && !l.Crash? && !l.Fail? && l.ref in s.tasks && s.tasks[l.ref] == t && TaskEnabled(base, s, t.phase, l)
  {
    var p := t.phase;
    match l
    case Built(ref, activation) => Move(s, ref, Adding(activation)).(built := s.built[t.attempt := activation])
    case Added(ref, subtree) => Move(s, ref, Making(EnvTree, p.activation, subtree)).(added := s.added[t.attempt := subtree])
    case Mkdir(ref, upto) =>
      var parent := Parent(base, Slot(p.tree, ref));
      var made := s.(fs := WithDirs(s.fs, parent, upto));
      if upto < |parent| then made else Move(made, ref, Clearing(p.tree, p.activation, p.subtree))
    case Clear(ref) =>
      Move(s, ref, Linking(p.tree, p.activation, p.subtree)).(fs := s.fs - {Tmp(base, Slot(p.tree, ref))})
    case Symlink(ref) =>
      Move(s, ref, Renaming(p.tree, p.activation, p.subtree)).(fs := s.fs[Tmp(base, Slot(p.tree, ref)) := Link(Linked(p))])
    case Rename(ref) =>
      var slot := Slot(p.tree, ref);
      var tmp := Tmp(base, slot);
      var renamed := s.(fs := (s.fs - {tmp})[Gc(base, slot) := s.fs[tmp]], roots := s.roots[slot := Root(t.attempt, Linked(p))]);
      if p.tree.EnvTree? then Move(renamed, ref, Making(ActivationTree, p.activation, p.subtree))
      else renamed.(tasks := s.tasks - {ref})
  }

  // ---------- the layout ----------

  /** No coordinate lies inside another, and none is, or lies inside, another's temporary name. */
  ghost predicate Laid(refs: set<Ref>) {
    && (forall a, b :: a in refs && b in refs && a != b ==> !(Coordinates(a) <= Coordinates(b)))
    && (forall a, b :: a in refs && b in refs ==> !(a.folder + [a.name + ".tmp"] <= Coordinates(b)))
  }

  lemma PathsApart(base: Path, refs: set<Ref>, a: Slot, b: Slot)
    requires Laid(refs) && a.ref in refs && b.ref in refs
    ensures Tmp(base, a) != Gc(base, b)
    ensures a != b ==> Gc(base, a) != Gc(base, b) && Tmp(base, a) != Tmp(base, b)
    ensures !(Gc(base, a) <= Parent(base, b)) && !(Tmp(base, a) <= Parent(base, b))
  {
    var k := |base| + 1;
    assert Gc(base, a)[..k][|base|] == Parent(base, a)[|base|];
    if a.tree == b.tree {
      assert Gc(base, a)[k..] == Coordinates(a.ref) && Gc(base, b)[k..] == Coordinates(b.ref);
      assert Tmp(base, a)[k..] == a.ref.folder + [a.ref.name + ".tmp"];
      assert Tmp(base, b)[k..] == b.ref.folder + [b.ref.name + ".tmp"];
      assert Parent(base, b)[k..] == b.ref.folder;
      assert Parent(base, b) <= Gc(base, b);
      TmpNamesApart(a.ref, b.ref);
      assert b.ref.folder <= Coordinates(b.ref);
    } else {
      assert Gc(base, a)[|base|] != Gc(base, b)[|base|] && Tmp(base, a)[|base|] != Tmp(base, b)[|base|];
      assert Tmp(base, a)[|base|] != Gc(base, b)[|base|] && Parent(base, b)[|base|] != Gc(base, a)[|base|];
    }
  }

  lemma TmpNamesApart(a: Ref, b: Ref)
    ensures a.folder + [a.name + ".tmp"] == b.folder + [b.name + ".tmp"] ==> a == b
  {
    var x, y := a.folder + [a.name + ".tmp"], b.folder + [b.name + ".tmp"];
    if x == y {
      assert x[|x| - 1] == y[|y| - 1] && a.folder == x[..|x| - 1] && b.folder == y[..|y| - 1];
      assert a.name == (a.name + ".tmp")[..|a.name|] && b.name == (b.name + ".tmp")[..|b.name|];
    }
  }

  // ---------- what every step keeps ----------

  /** The links' places hold no directory and the directories' places no link; whatever else the host has
      there, leftovers of crashed writes included, does not matter. */
  ghost predicate Usable(base: Path, refs: set<Ref>, fs: Fs) {
    forall slot: Slot :: slot.ref in refs ==>
      && (Gc(base, slot) in fs ==> fs[Gc(base, slot)].Link?)
      && (Tmp(base, slot) in fs ==> fs[Tmp(base, slot)].Link?)
      && CanMkdir(fs, Parent(base, slot))
  }

  ghost predicate TaskGood(base: Path, s: State, ref: Ref, t: Task) {
    && t.attempt < s.next
    && (t.phase.Building? ==> t.attempt !in s.built && t.attempt !in s.added)
    && (t.phase.Adding? ==> t.attempt in s.built && s.built[t.attempt] == t.phase.activation && t.attempt !in s.added)
    && (!t.phase.Building? && !t.phase.Adding? ==>
          && t.attempt in s.built && s.built[t.attempt] == t.phase.activation
          && t.attempt in s.added && s.added[t.attempt] == t.phase.subtree
          && (t.phase.tree.ActivationTree? ==> Slot(EnvTree, ref) in s.roots && s.roots[Slot(EnvTree, ref)].attempt == t.attempt)
          && WriteGood(base, s.fs, Slot(t.phase.tree, ref), t.phase))
    && (forall tree: Tree :: Slot(tree, ref) in s.roots ==> s.roots[Slot(tree, ref)].attempt <= t.attempt)
  }

  ghost predicate WriteGood(base: Path, fs: Fs, slot: Slot, phase: Phase) {
    && (phase.Clearing? || phase.Linking? || phase.Renaming? ==> Parent(base, slot) in fs)
    && (phase.Linking? ==> Tmp(base, slot) !in fs)
    && (phase.Renaming? ==> Tmp(base, slot) in fs && fs[Tmp(base, slot)] == Link(Linked(phase)))
  }

  /** A slot's link is what the last rename onto it made it, or what it was at the start. */
  ghost predicate EntryGood(base: Path, fs0: Fs, s: State, slot: Slot) {
    var gc := Gc(base, slot);
    if slot in s.roots then gc in s.fs && s.fs[gc] == Link(s.roots[slot].path)
    else (gc in s.fs <==> gc in fs0) && (gc in fs0 ==> s.fs[gc] == fs0[gc])
  }

  /** A root is what its attempt built or added; and the activation root never runs ahead of the env root. */
  ghost predicate RootGood(s: State, slot: Slot)
    requires slot in s.roots
  {
    var n := s.roots[slot].attempt;
    && n < s.next && n in s.built && n in s.added
    && s.roots[slot].path == (if slot.tree.EnvTree? then s.added[n] else s.built[n])
    && (slot.tree.ActivationTree? ==>
          Slot(EnvTree, slot.ref) in s.roots && n <= s.roots[Slot(EnvTree, slot.ref)].attempt)
  }

  ghost predicate Good(base: Path, refs: set<Ref>, fs0: Fs, s: State) {
    && s.tasks.Keys <= refs && Usable(base, refs, s.fs)
    && (forall n :: n in s.built || n in s.added ==> n < s.next)
    && (forall slot: Slot :: slot.ref in refs ==> EntryGood(base, fs0, s, slot))
    && (forall slot: Slot :: slot in s.roots ==> slot.ref in refs && RootGood(s, slot))
    && (forall ref :: ref in s.tasks ==> TaskGood(base, s, ref, s.tasks[ref]))
    && (forall a, b :: a in s.tasks && b in s.tasks && a != b ==> s.tasks[a].attempt != s.tasks[b].attempt)
  }

  /** From fs to fs' nothing changes but a slot's own two paths, and no directory appears there. */
  ghost predicate Touches(base: Path, fs: Fs, fs': Fs, a: Slot) {
    && (forall p :: p != Gc(base, a) && p != Tmp(base, a) ==> (p in fs <==> p in fs') && (p in fs ==> fs[p] == fs'[p]))
    && (Gc(base, a) in fs' ==> fs'[Gc(base, a)].Link?)
    && (Tmp(base, a) in fs' ==> fs'[Tmp(base, a)].Link?)
  }

  ghost predicate SameAt(fs: Fs, fs': Fs, p: Path) {
    (p in fs <==> p in fs') && (p in fs ==> fs[p] == fs'[p])
  }

  /** A slot's paths are its own: no other slot's links or directories are there. */
  lemma SlotsAreSeparate(base: Path, refs: set<Ref>, fs: Fs, fs': Fs, a: Slot, b: Slot)
    requires Laid(refs) && a.ref in refs && b.ref in refs && Usable(base, refs, fs) && Touches(base, fs, fs', a)
    ensures a != b ==> SameAt(fs, fs', Gc(base, b)) && SameAt(fs, fs', Tmp(base, b))
    ensures SameAt(fs, fs', Parent(base, b)) && CanMkdir(fs', Parent(base, b))
  {
    PathsApart(base, refs, a, b);
    PathsApart(base, refs, b, a);
    var parent := Parent(base, b);
    forall n | 0 < n <= |parent| ensures parent[..n] != Gc(base, a) && parent[..n] != Tmp(base, a) {
      assert parent[..n] <= parent;
    }
    assert parent != Gc(base, a) && parent != Tmp(base, a);
  }

  lemma TouchedIsUsable(base: Path, refs: set<Ref>, fs: Fs, fs': Fs, a: Slot)
    requires Laid(refs) && a.ref in refs && Usable(base, refs, fs) && Touches(base, fs, fs', a)
    ensures Usable(base, refs, fs')
  {
    forall slot: Slot | slot.ref in refs
      ensures (Gc(base, slot) in fs' ==> fs'[Gc(base, slot)].Link?)
              && (Tmp(base, slot) in fs' ==> fs'[Tmp(base, slot)].Link?) && CanMkdir(fs', Parent(base, slot))
    {
      SlotsAreSeparate(base, refs, fs, fs', a, slot);
    }
  }

  /** Making a slot's directories changes no link and loses no directory. */
  lemma DirsAreUsable(base: Path, refs: set<Ref>, fs: Fs, a: Slot, upto: nat)
    requires Laid(refs) && a.ref in refs && Usable(base, refs, fs) && upto <= |Parent(base, a)|
    ensures var fs' := WithDirs(fs, Parent(base, a), upto);
      && Usable(base, refs, fs')
      && (upto == |Parent(base, a)| ==> Parent(base, a) in fs')
      && (forall b: Slot :: b.ref in refs ==>
            SameAt(fs, fs', Gc(base, b)) && SameAt(fs, fs', Tmp(base, b)) && (Parent(base, b) in fs ==> Parent(base, b) in fs'))
  {
    var parent := Parent(base, a);
    var fs' := WithDirs(fs, parent, upto);
    WithDirsAdds(fs, parent, upto);
    forall b: Slot | b.ref in refs
      ensures SameAt(fs, fs', Gc(base, b)) && SameAt(fs, fs', Tmp(base, b)) && CanMkdir(fs', Parent(base, b))
    {
      PathsApart(base, refs, b, a);
    }
  }

  /** What a step on slot a leaves to the others. */
  ghost predicate Quiet(base: Path, refs: set<Ref>, fs: Fs, fs': Fs, a: Slot) {
    && Usable(base, refs, fs')
    && forall b: Slot :: b.ref in refs ==>
         && (Parent(base, b) in fs ==> Parent(base, b) in fs')
         && (b != a ==> SameAt(fs, fs', Gc(base, b)) && SameAt(fs, fs', Tmp(base, b)))
  }

  lemma TouchesAreQuiet(base: Path, refs: set<Ref>, fs: Fs, fs': Fs, a: Slot)
    requires Laid(refs) && a.ref in refs && Usable(base, refs, fs) && Touches(base, fs, fs', a)
    ensures Quiet(base, refs, fs, fs', a)
  {
    TouchedIsUsable(base, refs, fs, fs', a);
    forall b: Slot | b.ref in refs
      ensures (Parent(base, b) in fs ==> Parent(base, b) in fs')
              && (b != a ==> SameAt(fs, fs', Gc(base, b)) && SameAt(fs, fs', Tmp(base, b)))
    {
      SlotsAreSeparate(base, refs, fs, fs', a, b);
    }
  }

  /** The write a step belongs to. */
  function SlotOf(s: State, l: Step): Slot
    requires l.Mkdir? || l.Clear? || l.Symlink? || l.Rename?
    requires l.ref in s.tasks && !s.tasks[l.ref].phase.Building? && !s.tasks[l.ref].phase.Adding?
  {
    Slot(s.tasks[l.ref].phase.tree, l.ref)
  }

  /** Making directories, clearing the temporary name and linking it change no root. */
  lemma WriteStepIsQuiet(base: Path, refs: set<Ref>, fs0: Fs, s: State, l: Step)
    requires Laid(refs) && Good(base, refs, fs0, s) && Enabled(base, refs, s, l) && (l.Mkdir? || l.Clear? || l.Symlink?)
    ensures var fs' := Apply(base, refs, s, l).fs; var a := SlotOf(s, l);
      Quiet(base, refs, s.fs, fs', a) && SameAt(s.fs, fs', Gc(base, a))
  {
    var fs' := Apply(base, refs, s, l).fs;
    var a := SlotOf(s, l);
    PathsApart(base, refs, a, a);
    if l.Mkdir? {
      DirsAreUsable(base, refs, s.fs, a, l.upto);
    } else {
      assert Touches(base, s.fs, fs', a);
      TouchesAreQuiet(base, refs, s.fs, fs', a);
    }
  }

  lemma RenameIsQuiet(base: Path, refs: set<Ref>, fs0: Fs, s: State, l: Step)
    requires Laid(refs) && Good(base, refs, fs0, s) && Enabled(base, refs, s, l) && l.Rename?
    ensures var fs' := Apply(base, refs, s, l).fs; var a := SlotOf(s, l);
      Quiet(base, refs, s.fs, fs', a) && Gc(base, a) in fs' && fs'[Gc(base, a)] == Link(Linked(s.tasks[l.ref].phase))
  {
    var fs' := Apply(base, refs, s, l).fs;
    var a := SlotOf(s, l);
    PathsApart(base, refs, a, a);
    assert TaskGood(base, s, l.ref, s.tasks[l.ref]);
    assert Touches(base, s.fs, fs', a);
    TouchesAreQuiet(base, refs, s.fs, fs', a);
  }

  /** A write that took a step is where it should be. */
  lemma OwnTaskIsGood(base: Path, refs: set<Ref>, fs0: Fs, s: State, l: Step)
    requires Laid(refs) && Good(base, refs, fs0, s) && Enabled(base, refs, s, l)
    requires !l.Start? && !l.Fail? && !l.Crash? && l.ref in Apply(base, refs, s, l).tasks
    ensures var s' := Apply(base, refs, s, l); TaskGood(base, s', l.ref, s'.tasks[l.ref])
  {
    assert TaskGood(base, s, l.ref, s.tasks[l.ref]);
    if l.Mkdir? {
      var a := SlotOf(s, l);
      DirsAreUsable(base, refs, s.fs, a, l.upto);
    } else if l.Clear? || l.Symlink? {
      WriteStepIsQuiet(base, refs, fs0, s, l);
    }
  }

  /** A write in progress elsewhere is not disturbed. */
  lemma OtherTaskStaysGood(base: Path, refs: set<Ref>, s: State, s': State, a: Slot, ref: Ref)
    requires ref in s.tasks && ref in refs && TaskGood(base, s, ref, s.tasks[ref]) && ref != a.ref
    requires Quiet(base, refs, s.fs, s'.fs, a) && s'.next == s.next && s'.built == s.built && s'.added == s.added
    requires forall b: Slot :: b != a ==> (b in s.roots <==> b in s'.roots) && (b in s.roots ==> s.roots[b] == s'.roots[b])
    ensures TaskGood(base, s', ref, s.tasks[ref])
  {
  }

  lemma QuietStepIsGood(base: Path, refs: set<Ref>, fs0: Fs, s: State, s': State, a: Slot)
    requires Good(base, refs, fs0, s) && Quiet(base, refs, s.fs, s'.fs, a) && a.ref in s.tasks
    requires s'.next == s.next && s'.built == s.built && s'.added == s.added
    requires s'.tasks - {a.ref} == s.tasks - {a.ref} && s'.roots - {a} == s.roots - {a}
    requires a.ref in s'.tasks ==> s'.tasks[a.ref].attempt == s.tasks[a.ref].attempt && TaskGood(base, s', a.ref, s'.tasks[a.ref])
    requires EntryGood(base, fs0, s', a)
    requires forall slot :: slot in s'.roots ==> slot.ref in refs && RootGood(s', slot)
    ensures Good(base, refs, fs0, s')
  {
    forall ref | ref != a.ref ensures (ref in s'.tasks <==> ref in s.tasks) && (ref in s.tasks ==> s'.tasks[ref] == s.tasks[ref]) {
      assert ref in s'.tasks - {a.ref} <==> ref in s.tasks - {a.ref};
      assert ref in s.tasks ==> (s'.tasks - {a.ref})[ref] == (s.tasks - {a.ref})[ref];
    }
    forall slot: Slot | slot != a ensures (slot in s'.roots <==> slot in s.roots) && (slot in s.roots ==> s'.roots[slot] == s.roots[slot]) {
      assert slot in s'.roots - {a} <==> slot in s.roots - {a};
      assert slot in s.roots ==> (s'.roots - {a})[slot] == (s.roots - {a})[slot];
    }
    forall slot: Slot | slot.ref in refs ensures EntryGood(base, fs0, s', slot) {
      assert EntryGood(base, fs0, s, slot) && (slot != a ==> SameAt(s.fs, s'.fs, Gc(base, slot)));
    }
    forall ref | ref in s'.tasks ensures TaskGood(base, s', ref, s'.tasks[ref]) {
      if ref != a.ref { OtherTaskStaysGood(base, refs, s, s', a, ref); }
    }
  }

  /** A file step belongs to one write: the other tasks, the other roots and the store history stay. */
  lemma FileStepIsLocal(base: Path, refs: set<Ref>, s: State, l: Step)
    requires Enabled(base, refs, s, l) && (l.Mkdir? || l.Clear? || l.Symlink? || l.Rename?)
    ensures var s' := Apply(base, refs, s, l); var a := SlotOf(s, l);
      && s'.next == s.next && s'.built == s.built && s'.added == s.added
      && s'.tasks - {l.ref} == s.tasks - {l.ref} && s'.roots - {a} == s.roots - {a}
      && (l.ref in s'.tasks ==> s'.tasks[l.ref].attempt == s.tasks[l.ref].attempt)
      && (!l.Rename? ==> s'.roots == s.roots && l.ref in s'.tasks)
      && (l.Rename? ==> a in s'.roots && s'.roots[a].path == Linked(s.tasks[l.ref].phase))
  {
  }

  lemma WriteStepIsGood(base: Path, refs: set<Ref>, fs0: Fs, s: State, l: Step)
    requires Laid(refs) && Good(base, refs, fs0, s) && Enabled(base, refs, s, l) && (l.Mkdir? || l.Clear? || l.Symlink?)
    ensures Good(base, refs, fs0, Apply(base, refs, s, l))
  {
    var s' := Apply(base, refs, s, l);
    var a := SlotOf(s, l);
    FileStepIsLocal(base, refs, s, l);
    WriteStepIsQuiet(base, refs, fs0, s, l);
    OwnTaskIsGood(base, refs, fs0, s, l);
    assert EntryGood(base, fs0, s, a);
    forall slot | slot in s'.roots ensures RootGood(s', slot) {
      assert RootGood(s, slot);
    }
    QuietStepIsGood(base, refs, fs0, s, s', a);
  }

  lemma RenamedRootsAreGood(base: Path, refs: set<Ref>, fs0: Fs, s: State, l: Step, slot: Slot)
    requires Laid(refs) && Good(base, refs, fs0, s) && Enabled(base, refs, s, l) && l.Rename?
    requires slot in Apply(base, refs, s, l).roots
    ensures slot.ref in refs && RootGood(Apply(base, refs, s, l), slot)
  {
    assert TaskGood(base, s, l.ref, s.tasks[l.ref]);
    assert slot in s.roots ==> RootGood(s, slot);
  }

  /** The rename moves its own slot to what its attempt built or added, and no other. */
  lemma RenameIsGood(base: Path, refs: set<Ref>, fs0: Fs, s: State, l: Step)
    requires Laid(refs) && Good(base, refs, fs0, s) && Enabled(base, refs, s, l) && l.Rename?
    ensures Good(base, refs, fs0, Apply(base, refs, s, l))
  {
    var s' := Apply(base, refs, s, l);
    FileStepIsLocal(base, refs, s, l);
    RenameIsQuiet(base, refs, fs0, s, l);
    forall slot | slot in s'.roots ensures slot.ref in refs && RootGood(s', slot) {
      RenamedRootsAreGood(base, refs, fs0, s, l, slot);
    }
    if l.ref in s'.tasks { OwnTaskIsGood(base, refs, fs0, s, l); }
    QuietStepIsGood(base, refs, fs0, s, s', SlotOf(s, l));
  }

  /** A build or an add finishes: its attempt's entry in the store history is new. */
  lemma StoreStepIsGood(base: Path, refs: set<Ref>, fs0: Fs, s: State, l: Step)
    requires Laid(refs) && Good(base, refs, fs0, s) && Enabled(base, refs, s, l) && (l.Built? || l.Added?)
    ensures Good(base, refs, fs0, Apply(base, refs, s, l))
  {
    var s' := Apply(base, refs, s, l);
    assert TaskGood(base, s, l.ref, s.tasks[l.ref]);
    forall slot: Slot | slot.ref in refs ensures EntryGood(base, fs0, s', slot) {
      assert EntryGood(base, fs0, s, slot);
    }
    forall slot | slot in s'.roots ensures RootGood(s', slot) {
      assert RootGood(s, slot);
    }
    OwnTaskIsGood(base, refs, fs0, s, l);
    forall ref | ref in s'.tasks ensures TaskGood(base, s', ref, s'.tasks[ref]) {
      assert TaskGood(base, s, ref, s.tasks[ref]);
    }
  }

  /** Starting, failing and dying touch no file. */
  lemma EndStepIsGood(base: Path, refs: set<Ref>, fs0: Fs, s: State, l: Step)
    requires Laid(refs) && Good(base, refs, fs0, s) && Enabled(base, refs, s, l) && (l.Start? || l.Fail? || l.Crash?)
    ensures Good(base, refs, fs0, Apply(base, refs, s, l))
  {
    var s' := Apply(base, refs, s, l);
    forall slot: Slot | slot.ref in refs ensures EntryGood(base, fs0, s', slot) {
      assert EntryGood(base, fs0, s, slot);
    }
    forall slot | slot in s'.roots ensures RootGood(s', slot) {
      assert RootGood(s, slot);
    }
    forall ref | ref in s'.tasks ensures TaskGood(base, s', ref, s'.tasks[ref]) {
      assert ref in s.tasks ==> TaskGood(base, s, ref, s.tasks[ref]);
    }
  }

  lemma StepIsGood(base: Path, refs: set<Ref>, fs0: Fs, s: State, l: Step)
    requires Laid(refs) && Good(base, refs, fs0, s) && Enabled(base, refs, s, l)
    ensures Good(base, refs, fs0, Apply(base, refs, s, l))
  {
    match l
    case Mkdir(_, _) => WriteStepIsGood(base, refs, fs0, s, l);
    case Clear(_) => WriteStepIsGood(base, refs, fs0, s, l);
    case Symlink(_) => WriteStepIsGood(base, refs, fs0, s, l);
    case Rename(_) => RenameIsGood(base, refs, fs0, s, l);
    case Built(_, _) => StoreStepIsGood(base, refs, fs0, s, l);
    case Added(_, _) => StoreStepIsGood(base, refs, fs0, s, l);
    case _ => EndStepIsGood(base, refs, fs0, s, l);
  }

  ghost predicate Runs(base: Path, refs: set<Ref>, s: State, ls: seq<Step>, t: State)
    decreases |ls|
  {
    if ls == [] then s == t
    else Enabled(base, refs, s, ls[0]) && Runs(base, refs, Apply(base, refs, s, ls[0]), ls[1..], t)
  }

  /** Over every run of any number of Realize calls, whatever steps interleave and wherever they fail or the
      process dies: each root is exactly what the last rename onto it made it, which is what that attempt
      added or built, or still what it was at the start; the activation root is never of a later attempt
      than the env root. */
  lemma {:induction false} RootsMoveAtomically(base: Path, refs: set<Ref>, fs0: Fs, s: State, ls: seq<Step>, t: State)
    requires Laid(refs) && Good(base, refs, fs0, s) && Runs(base, refs, s, ls, t)
    ensures Good(base, refs, fs0, t)
    ensures forall slot: Slot :: slot.ref in refs && Gc(base, slot) in fs0 ==> Gc(base, slot) in t.fs
    decreases |ls|
  {
    if ls != [] {
      StepIsGood(base, refs, fs0, s, ls[0]);
      RootsMoveAtomically(base, refs, fs0, Apply(base, refs, s, ls[0]), ls[1..], t);
    } else {
      forall slot: Slot | slot.ref in refs && Gc(base, slot) in fs0 ensures Gc(base, slot) in t.fs {
        assert EntryGood(base, fs0, t, slot);
      }
    }
  }

  /** A node at its start, with any file system that lets the links be made. */
  lemma AnyUsableHostIsGood(base: Path, refs: set<Ref>, fs: Fs)
    requires Usable(base, refs, fs)
    ensures Good(base, refs, fs, State(fs, map[], 0, map[], map[], map[]))
  {
  }

  /** So from any host that lets the links be made: a root that no Realize renamed onto is as it was found; one
      that was is the link the last rename made, to what that attempt added or built; an activation root
      was moved by no later attempt than the env root; and the next step of every Realize in flight can
      be taken. */
  lemma RootsOfAnyHost(base: Path, refs: set<Ref>, fs: Fs, ls: seq<Step>, t: State, slot: Slot)
    requires Laid(refs) && Usable(base, refs, fs) && slot.ref in refs
    requires Runs(base, refs, State(fs, map[], 0, map[], map[], map[]), ls, t)
    ensures slot !in t.roots ==> SameAt(fs, t.fs, Gc(base, slot))
    ensures slot in t.roots ==>
              var root := t.roots[slot];
              && Gc(base, slot) in t.fs && t.fs[Gc(base, slot)] == Link(root.path)
              && root.attempt in t.added && root.attempt in t.built
              && root.path == (if slot.tree.EnvTree? then t.added else t.built)[root.attempt]
    ensures Slot(ActivationTree, slot.ref) in t.roots ==>
              && Slot(EnvTree, slot.ref) in t.roots
              && t.roots[Slot(ActivationTree, slot.ref)].attempt <= t.roots[Slot(EnvTree, slot.ref)].attempt
    ensures slot == Slot(EnvTree, slot.ref) && slot in t.roots ==>
              LinkAt(t.fs, base + ["env"] + slot.ref.folder + [slot.ref.name], t.added[t.roots[slot].attempt])
    ensures slot == Slot(ActivationTree, slot.ref) && slot in t.roots ==>
              LinkAt(t.fs, base + ["activation"] + slot.ref.folder + [slot.ref.name], t.built[t.roots[slot].attempt])
    ensures forall ref, activation, subtree :: ref in t.tasks ==>
              Enabled(base, refs, t, Next(base, ref, t.tasks[ref].phase, activation, subtree))
  {
    RootPaths(base, slot.ref);
    var s := State(fs, map[], 0, map[], map[], map[]);
    AnyUsableHostIsGood(base, refs, fs);
    RootsMoveAtomically(base, refs, fs, s, ls, t);
    assert EntryGood(base, fs, t, slot);
    if slot in t.roots { assert RootGood(t, slot); }
    var activation := Slot(ActivationTree, slot.ref);
    if activation in t.roots { assert RootGood(t, activation); }
    forall ref, a, b | ref in t.tasks ensures Enabled(base, refs, t, Next(base, ref, t.tasks[ref].phase, a, b)) {
      NextIsEnabled(base, refs, fs, t, ref, a, b);
    }
  }

  // ---------- a retry succeeds ----------

  /** The successful next step of a Realize. */
  function Next(base: Path, ref: Ref, phase: Phase, activation: string, subtree: string): Step {
    match phase
    case Building => Built(ref, activation)
    case Adding(_) => Added(ref, subtree)
    case Making(tree, _, _) => Mkdir(ref, |Parent(base, Slot(tree, ref))|)
    case Clearing(_, _, _) => Clear(ref)
    case Linking(_, _, _) => Symlink(ref)
    case Renaming(_, _, _) => Rename(ref)
  }

  function StepsLeft(phase: Phase): nat {
    match phase
    case Building => 10
    case Adding(_) => 9
    case Making(tree, _, _) => if tree.EnvTree? then 8 else 4
    case Clearing(tree, _, _) => if tree.EnvTree? then 7 else 3
    case Linking(tree, _, _) => if tree.EnvTree? then 6 else 2
    case Renaming(tree, _, _) => if tree.EnvTree? then 5 else 1
  }

  /** No file system operation of a write can fail by what other writes or an earlier crash left: from every
      reachable state the next step of every Realize is enabled. */
  lemma NextIsEnabled(base: Path, refs: set<Ref>, fs0: Fs, s: State, ref: Ref, activation: string, subtree: string)
    requires Laid(refs) && Good(base, refs, fs0, s) && ref in s.tasks
    ensures Enabled(base, refs, s, Next(base, ref, s.tasks[ref].phase, activation, subtree))
  {
    var phase := s.tasks[ref].phase;
    assert TaskGood(base, s, ref, s.tasks[ref]);
    if !phase.Building? && !phase.Adding? {
      var slot := Slot(phase.tree, ref);
      assert slot.ref in refs;
      assert |Tmp(base, slot)| > 1 && Tmp(base, slot)[..|Tmp(base, slot)| - 1] == Parent(base, slot);
      assert Parent(base, slot)[..|Parent(base, slot)|] == Parent(base, slot);
    }
  }

  /** Both roots of a coordinate were last moved by this attempt. */
  ghost predicate RootedBy(s: State, ref: Ref, attempt: nat) {
    forall tree: Tree :: Slot(tree, ref) in s.roots && s.roots[Slot(tree, ref)].attempt == attempt
  }

  /** And that step is one step nearer the end, or the end. */
  lemma NextIsNearer(base: Path, refs: set<Ref>, fs0: Fs, s: State, ref: Ref, activation: string, subtree: string)
    requires Laid(refs) && Good(base, refs, fs0, s) && ref in s.tasks
    requires Enabled(base, refs, s, Next(base, ref, s.tasks[ref].phase, activation, subtree))
    ensures var t := s.tasks[ref]; var s' := Apply(base, refs, s, Next(base, ref, t.phase, activation, subtree));
      if StepsLeft(t.phase) == 1 then RootedBy(s', ref, t.attempt)
      else ref in s'.tasks && s'.tasks[ref].attempt == t.attempt && StepsLeft(s'.tasks[ref].phase) == StepsLeft(t.phase) - 1
  {
    var t := s.tasks[ref];
    assert TaskGood(base, s, ref, t);
    var s' := Advance(base, s, t, Next(base, ref, t.phase, activation, subtree));
    if StepsLeft(t.phase) == 1 {
      forall tree: Tree ensures Slot(tree, ref) in s'.roots && s'.roots[Slot(tree, ref)].attempt == t.attempt {
        assert tree == EnvTree || tree == ActivationTree;
      }
    }
  }

  /** What the attempt will have built and added in the end, if it has not yet. */
  function ActivationOf(phase: Phase, activation: string): string { if phase.Building? then activation else phase.activation }

  function SubtreeOf(phase: Phase, subtree: string): string { if phase.Building? || phase.Adding? then subtree else phase.subtree }

  lemma NextKeepsAim(base: Path, refs: set<Ref>, fs0: Fs, s: State, ref: Ref, activation: string, subtree: string)
    requires Laid(refs) && Good(base, refs, fs0, s) && ref in s.tasks
    requires Enabled(base, refs, s, Next(base, ref, s.tasks[ref].phase, activation, subtree))
    ensures var t := s.tasks[ref]; var s' := Apply(base, refs, s, Next(base, ref, t.phase, activation, subtree));
      if StepsLeft(t.phase) == 1 then
        && t.attempt in s'.built && s'.built[t.attempt] == ActivationOf(t.phase, activation)
        && t.attempt in s'.added && s'.added[t.attempt] == SubtreeOf(t.phase, subtree)
      else
        && ref in s'.tasks && ActivationOf(s'.tasks[ref].phase, activation) == ActivationOf(t.phase, activation)
        && SubtreeOf(s'.tasks[ref].phase, subtree) == SubtreeOf(t.phase, subtree)
  {
    assert TaskGood(base, s, ref, s.tasks[ref]);
  }

  /** So a Realize whose build and add succeed completes within ten steps of its own, with both roots moved to
      this attempt, from any state a crash or failure may have left. */
  lemma {:induction false} RealizeCompletes(
    base: Path, refs: set<Ref>, fs0: Fs, s: State, ref: Ref, activation: string, subtree: string) returns (ls: seq<Step>, t: State)
    requires Laid(refs) && Good(base, refs, fs0, s) && ref in s.tasks
    ensures Runs(base, refs, s, ls, t) && |ls| == StepsLeft(s.tasks[ref].phase) <= 10
    ensures Good(base, refs, fs0, t) && RootedBy(t, ref, s.tasks[ref].attempt)
    ensures var n := s.tasks[ref].attempt;
      && n in t.built && t.built[n] == ActivationOf(s.tasks[ref].phase, activation)
      && n in t.added && t.added[n] == SubtreeOf(s.tasks[ref].phase, subtree)
    decreases StepsLeft(s.tasks[ref].phase)
  {
    var l := Next(base, ref, s.tasks[ref].phase, activation, subtree);
    NextIsEnabled(base, refs, fs0, s, ref, activation, subtree);
    NextIsNearer(base, refs, fs0, s, ref, activation, subtree);
    NextKeepsAim(base, refs, fs0, s, ref, activation, subtree);
    StepIsGood(base, refs, fs0, s, l);
    var s' := Apply(base, refs, s, l);
    var rest := [];
    t := s';
    if StepsLeft(s.tasks[ref].phase) != 1 {
      rest, t := RealizeCompletes(base, refs, fs0, s', ref, activation, subtree);
    }
    ls := [l] + rest;
    assert ls[1..] == rest;
  }

  /** And its links are where they are looked for: what it added below "env", what it built below "activation". */
  lemma CompletedLinks(
    base: Path, refs: set<Ref>, fs0: Fs, s: State, ref: Ref, activation: string, subtree: string) returns (ls: seq<Step>, t: State)
    requires Laid(refs) && Good(base, refs, fs0, s) && ref in s.tasks && s.tasks[ref].phase == Building
    ensures Runs(base, refs, s, ls, t) && |ls| == 10
    ensures LinkAt(t.fs, base + ["env"] + ref.folder + [ref.name], subtree)
    ensures LinkAt(t.fs, base + ["activation"] + ref.folder + [ref.name], activation)
  {
    ls, t := RealizeCompletes(base, refs, fs0, s, ref, activation, subtree);
    RootPaths(base, ref);
    forall tree: Tree ensures EntryGood(base, fs0, t, Slot(tree, ref)) && Slot(tree, ref) in t.roots && RootGood(t, Slot(tree, ref)) {
      assert Slot(tree, ref).ref in refs;
    }
  }
}
