/** The two scopes around every build: a clean setuptools build tree, and inside it a
    generated provenance file. However the build ends, both are put back, unless it leaves
    something at the build path that is no directory. */
module BuildScopes {
  import opened Wrappers
  import A = Archives

  type Tree = map<string, seq<int>>

  /** What stands at the build path. */
  datatype BuildPath = Nothing | Folder(tree: Tree) | PlainFile(content: seq<int>)

  datatype BuildError = NoProvenance | BackendFailed | CleanupFailed | Rejected(reason: A.ArchiveError)

  /** What a backend leaves behind: the build path, the provenance file, and its result. */
  datatype Effect<R> = Effect(build: BuildPath, provenance: Option<string>, result: Result<R, BuildError>)

  /** A backend run on the build path and provenance file it finds. */
  type Backend<R> = (BuildPath, Option<string>) -> Effect<R>

  /** The backend, run from a clean build path, leaves something the cleanup cannot remove. */
  predicate Stuck<R>(payload: Option<string>, backend: Backend<R>) {
    payload.Some? && backend(Nothing, payload).build.PlainFile?
  }

  /** The wheel a build yields: nothing the work tree held before enters it. */
  function Wheel(payload: Option<string>, backend: Backend<seq<A.WheelMember>>, epoch: Option<int>)
    : Result<seq<A.WheelMember>, BuildError>
  {
    if payload.None? then Err(NoProvenance)
    else if Stuck(payload, backend) then Err(CleanupFailed)
    else
      match backend(Nothing, payload).result
      case Err(e) => Err(e)
      case Ok(members) =>
        match A.ArchiveEpoch(epoch)
        case Err(e) => Err(Rejected(e))
        case Ok(when) =>
          if A.Distinct(A.Names(members)) then Ok(A.NormalWheel(members, when))
          else Err(Rejected(A.DuplicatePaths))
  }

  class WorkTree {
    var build: BuildPath
    var provenance: Option<string>
    /** Backup directories by name, each holding what was moved from the build path. */
    var backups: map<string, BuildPath>

    constructor (build: BuildPath, provenance: Option<string>)
      ensures this.build == build && this.provenance == provenance && backups == map[]
    {
      this.build := build;
      this.provenance := provenance;
      this.backups := map[];
    }

    /** `_generated_provenance` around a backend. */
    method GeneratedProvenance<R>(payload: Option<string>, backend: Backend<R>) returns (r: Result<R, BuildError>)
      modifies this`build, this`provenance
      ensures provenance == old(provenance)
      ensures payload.None? ==> r == Err(NoProvenance) && build == old(build)
      ensures payload.Some? ==>
                var effect := backend(old(build), payload);
                r == effect.result && build == effect.build
    {
      var previous := provenance;
      if payload.None? { return Err(NoProvenance); }
      provenance := payload;
      var effect := backend(build, provenance);
      build, provenance, r := effect.build, effect.provenance, effect.result;
      if previous.None? {
        provenance := None;
      } else {
        provenance := previous;
      }
    }

    /** What stands at the build path moves into the backup. */
    method SetAside(backup: string)
      modifies this`build, this`backups
      ensures build == Nothing && backups == old(backups)[backup := old(build)]
    {
      backups := backups[backup := Nothing];
      if !build.Nothing? {
        backups := backups[backup := build];
        build := Nothing;
      }
    }

    /** What the body left is removed and the backup moved back, unless the removal raises. */
    method PutBack(backup: string) returns (restored: bool)
      requires backup in backups
      modifies this`build, this`backups
      ensures restored <==> !old(build).PlainFile?
      ensures restored ==> build == old(backups)[backup] && backups == old(backups) - {backup}
      ensures !restored ==> build == old(build) && backups == old(backups)
    {
      if build.PlainFile? { return false; }
      if build.Folder? {
        build := Nothing;
      }
      if !backups[backup].Nothing? {
        build := backups[backup];
        backups := backups[backup := Nothing];
      }
      backups := backups - {backup};
      return true;
    }

    /** `_clean_setuptools_build_tree` around `_generated_provenance` around a backend.
        `backup` is the name `mkdtemp` picks. The build path is restored if and only if the
        backend leaves a directory there or nothing; otherwise what was there before stays in
        the backup. The provenance file is restored in any case. */
    method InScopes<R>(backup: string, payload: Option<string>, backend: Backend<R>) returns (r: Result<R, BuildError>)
      requires backup !in backups
      modifies this
      ensures provenance == old(provenance)
      ensures !Stuck(payload, backend) ==>
                && build == old(build) && backups == old(backups)
                && r == if payload.None? then Err(NoProvenance) else backend(Nothing, payload).result
      ensures Stuck(payload, backend) ==>
                && build == backend(Nothing, payload).build && backups == old(backups)[backup := old(build)]
                && r == Err(CleanupFailed)
    {
      SetAside(backup);
      r := GeneratedProvenance(payload, backend);
      var restored := PutBack(backup);
      if !restored { return Err(CleanupFailed); }
    }

    /** `build_wheel`: the backend's wheel, normalised after both scopes have closed. */
    method BuildWheel(backup: string, payload: Option<string>, backend: Backend<seq<A.WheelMember>>, epoch: Option<int>)
      returns (r: Result<seq<A.WheelMember>, BuildError>)
      requires backup !in backups
      modifies this
      ensures provenance == old(provenance)
      ensures !Stuck(payload, backend) ==> build == old(build) && backups == old(backups)
      ensures r == Wheel(payload, backend, epoch)
    {
      var built := InScopes(backup, payload, backend);
      if built.Err? { return Err(built.error); }
      var normal := A.NormalizeWheel(built.value, epoch);
      r := match normal case Ok(wheel) => Ok(wheel) case Err(reason) => Err(Rejected(reason));
    }
  }

  /** A build that succeeds is reproduced by another backend if and only if that one leaves a
      removable build path, distinct names, and under each name the same payload and stored
      attribute, in any order and with any timestamps. */
  lemma BuildsReproduce(
      payload: Option<string>, one: Backend<seq<A.WheelMember>>, two: Backend<seq<A.WheelMember>>, epoch: Option<int>)
    requires Wheel(payload, one, epoch).Ok? && two(Nothing, payload).result.Ok?
    ensures
      var a, b := one(Nothing, payload).result.value, two(Nothing, payload).result.value;
      Wheel(payload, one, epoch) == Wheel(payload, two, epoch) <==>
        !Stuck(payload, two) && A.Distinct(A.Names(b)) && A.SameWheel(a, b)
  {
    var a, b := one(Nothing, payload).result.value, two(Nothing, payload).result.value;
    if A.Distinct(A.Names(b)) { A.WheelsAlike(a, b, A.ArchiveEpoch(epoch).value); }
  }
}
