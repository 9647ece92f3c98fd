/**
 The worktree and the effects on it under a schedule of outcomes. An effect may succeed, fail
 without effect, fail after its effect, or be cut off by a crash on either side of its effect.
 After the schedule runs out every effect succeeds.
 */
module Effects {
  import opened Prelude

  const MAX_FILE_BYTES: nat := 8 * 1024 * 1024
  const CREATED_MODE: nat := 0x1A4 // octal 644

  type Path = string
  datatype File = File(bytes: Bytes, mode: nat)
  type Tree = map<Path, File>

  function At(tree: Tree, path: Path): Option<File> {
    if path in tree then Some(tree[path]) else None
  }

  datatype Fault = Ok | FailBefore | FailAfter | CrashBefore | CrashAfter
  datatype Status = Running | Threw | Crashed

  predicate TakesEffect(fault: Fault, allowed: bool) {
    allowed && !fault.FailBefore? && !fault.CrashBefore?
  }

  function StatusAfter(fault: Fault, allowed: bool, status: Status): Status {
    match fault
    case CrashBefore | CrashAfter => Crashed
    case FailBefore | FailAfter => Threw
    case Ok => if allowed then status else Threw
  }

  datatype Machine<R> = Machine(tree: Tree, durable: R, memory: R, faults: seq<Fault>, status: Status) {
    function Next(): Fault {
      if faults == [] then Ok else faults[0]
    }

    function Spend(): seq<Fault> {
      if faults == [] then [] else faults[1..]
    }

    /** Perform a write whose precondition is `allowed` and whose result would be `after`. */
    function Effect(allowed: bool, after: Machine<R>): Machine<R> {
      (if TakesEffect(Next(), allowed) then after else this)
      .(faults := Spend(), status := StatusAfter(Next(), allowed, status))
    }

    /** A read has no effect; it throws on an oversized file. */
    function Read(path: Path): Machine<R> {
      Effect(path in tree ==> |tree[path].bytes| <= MAX_FILE_BYTES, this)
    }

    function Write(path: Path, file: File, mustBeAbsent: bool): Machine<R> {
      Effect(|file.bytes| <= MAX_FILE_BYTES && (mustBeAbsent <==> path !in tree),
             this.(tree := tree[path := file]))
    }

    function Remove(path: Path): Machine<R> {
      Effect(path in tree, this.(tree := tree - {path}))
    }

    /** writeExecutorReceipt: the memory receipt becomes the durable one. */
    function Save(): Machine<R> {
      Effect(true, this.(durable := memory))
    }

    function Throw(): Machine<R> {
      this.(status := Threw)
    }
  }

  /** r differs from m in the worktree at `path` at most, and in no receipt. */
  ghost predicate Touches<R>(m: Machine<R>, r: Machine<R>, path: Path) {
    && r.memory == m.memory
    && r.durable == m.durable
    && forall p :: p != path ==> At(r.tree, p) == At(m.tree, p)
  }

  lemma ReadStep<R>(m: Machine<R>, path: Path)
    ensures var r := m.Read(path);
            r.tree == m.tree && r.memory == m.memory && r.durable == m.durable &&
            (r.status.Running? ==> r.status == m.status)
  {
  }

  lemma WriteStep<R>(m: Machine<R>, path: Path, file: File, mustBeAbsent: bool)
    ensures var r := m.Write(path, file, mustBeAbsent);
            && Touches(m, r, path)
            && (At(r.tree, path) == At(m.tree, path) || At(r.tree, path) == Some(file))
            && (r.status.Running? ==> At(r.tree, path) == Some(file))
  {
  }

  lemma RemoveStep<R>(m: Machine<R>, path: Path)
    ensures var r := m.Remove(path);
            && Touches(m, r, path)
            && (At(r.tree, path) == At(m.tree, path) || At(r.tree, path) == None)
            && (r.status.Running? ==> At(r.tree, path) == None)
  {
  }

  lemma SaveStep<R>(m: Machine<R>)
    ensures var r := m.Save();
            && r.tree == m.tree && r.memory == m.memory
            && (r.durable == m.durable || r.durable == m.memory)
            && (r.status.Running? ==> r.durable == m.memory)
  {
  }

  /** The process: the same machine as an object that every effect changes in place. */
  class Process<R> {
    var tree: Tree
    var durable: R
    var memory: R
    var faults: seq<Fault>
    var status: Status

    ghost function State(): Machine<R>
      reads this
    {
      Machine(tree, durable, memory, faults, status)
    }

    /** A new process reads the durable receipt. */
    constructor (tree: Tree, durable: R, faults: seq<Fault>)
      ensures State() == Machine(tree, durable, durable, faults, Running)
    {
      this.tree := tree;
      this.durable, this.memory := durable, durable;
      this.faults, this.status := faults, Running;
    }

    /** The next scheduled outcome; a write that is not allowed never takes effect. */
    method Take(allowed: bool) returns (takesEffect: bool)
      modifies `faults, `status
      ensures takesEffect == TakesEffect(old(State()).Next(), allowed)
      ensures status == StatusAfter(old(State()).Next(), allowed, old(status))
      ensures faults == old(State()).Spend()
    {
      var fault := if faults == [] then Ok else faults[0];
      faults := if faults == [] then [] else faults[1..];
      takesEffect := allowed && !fault.CrashBefore? && !fault.FailBefore?;
      if fault.CrashBefore? || fault.CrashAfter? {
        status := Crashed;
      } else if fault.FailBefore? || fault.FailAfter? || !allowed {
        status := Threw;
      }
    }

    method Read(path: Path) returns (current: Option<File>)
      requires status.Running?
      modifies `faults, `status
      ensures State() == old(State()).Read(path) && current == At(tree, path)
    {
      var _ := Take(path in tree ==> |tree[path].bytes| <= MAX_FILE_BYTES);
      current := At(tree, path);
    }

    method Write(path: Path, file: File, mustBeAbsent: bool)
      requires status.Running?
      modifies `tree, `faults, `status
      ensures State() == old(State()).Write(path, file, mustBeAbsent)
    {
      var done := Take(|file.bytes| <= MAX_FILE_BYTES && (mustBeAbsent <==> path !in tree));
      if done {
        tree := tree[path := file];
      }
    }

    method Remove(path: Path)
      requires status.Running?
      modifies `tree, `faults, `status
      ensures State() == old(State()).Remove(path)
    {
      var done := Take(path in tree);
      if done {
        tree := tree - {path};
      }
    }

    method Save()
      requires status.Running?
      modifies `durable, `faults, `status
      ensures State() == old(State()).Save()
    {
      var done := Take(true);
      if done {
        durable := memory;
      }
    }
  }
}
