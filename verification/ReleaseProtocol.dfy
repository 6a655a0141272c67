/** Many runs of the publication guard on one version: builds, runs, uploads, crashes, uploads by others,
    in any order. Published files can only be added. */
module ReleaseProtocol {
  import opened Options
  import opened ReleaseGuard

  // staging maps the staged files to their digests. reviewed is the build whose staged files are being
  // uploaded, and foreign the files others published since it was reviewed. accepted is a history
  // variable: the build and the published files at every run that did not reject.
  datatype State = State(
    local: Hashes, remote: Hashes, staging: Hashes, reviewed: Option<Hashes>, foreign: set<string>,
    accepted: seq<Acceptance>)

  datatype Acceptance = Acceptance(local: Hashes, remote: Hashes)

  datatype Step =
    | Rebuild(local: Hashes)
    | CleanRunner
    | Run(steady: bool, left: Hashes)
    | Upload(file: string)
    | Crash
    | PublishedByOthers(file: string, digest: Digest)

  datatype Answer = Reject | Skip | Stage

  function Missing(local: Hashes, remote: Hashes): Hashes {
    map f | f in local && f !in remote :: local[f]
  }

  // What a run of the guard answers; steady says whether the build stays put while it is staged.
  function AnswerOf(s: State, steady: bool): Answer {
    if !Part(s.remote, s.local) then Reject
    else if Missing(s.local, s.remote) == map[] then Skip
    else if s.staging != map[] || !steady then Reject
    else Stage
  }

  function Next(s: State, step: Step): State {
    match step
    case Rebuild(local) => s.(local := local)
    case CleanRunner => s.(staging := map[], reviewed := None)
    case Run(steady, left) =>
      (match AnswerOf(s, steady)
       case Reject =>
         // A run that fails while it stages leaves some of the files behind.
         s.(staging := if Part(s.remote, s.local) && s.staging == map[] then left else s.staging, reviewed := None)
       case Skip => s.(reviewed := None, foreign := {}, accepted := s.accepted + [Acceptance(s.local, s.remote)])
       case Stage =>
         s.(staging := Missing(s.local, s.remote), reviewed := Some(s.local), foreign := {},
            accepted := s.accepted + [Acceptance(s.local, s.remote)]))
    case Upload(f) =>
      if s.reviewed.Some? && f in s.staging && f !in s.remote then s.(remote := s.remote[f := s.staging[f]]) else s
    case Crash => s.(reviewed := None)
    case PublishedByOthers(f, digest) =>
      if f in s.remote then s else s.(remote := s.remote[f := digest], foreign := s.foreign + {f})
  }

  function RunAll(s: State, steps: seq<Step>): State {
    if steps == [] then s else Next(RunAll(s, steps[..|steps| - 1]), steps[|steps| - 1])
  }

  function Initial(local: Hashes): State {
    State(local, map[], map[], None, {}, [])
  }

  // ---- The invariant ----

  // What others did not add is a part of the build under review.
  predicate OwnPart(remote: Hashes, foreign: set<string>, reviewed: Hashes) {
    forall f :: f in remote && f !in foreign ==> f in reviewed && reviewed[f] == remote[f]
  }

  ghost predicate Inv(s: State) {
    ReviewInv(s) && HistoryInv(s)
  }

  ghost predicate HistoryInv(s: State) {
    && (forall i :: 0 <= i < |s.accepted| ==>
         Part(s.accepted[i].remote, s.accepted[i].local) && Part(s.accepted[i].remote, s.remote))
    && (forall i, j :: 0 <= i < j < |s.accepted| ==> Part(s.accepted[i].remote, s.accepted[j].remote))
  }

  ghost predicate ReviewInv(s: State) {
    s.reviewed.Some? ==> OwnPart(s.remote, s.foreign, s.reviewed.value) && Part(s.staging, s.reviewed.value)
  }

  lemma NextGrows(s: State, step: Step)
    ensures Part(s.remote, Next(s, step).remote)
    ensures var s' := Next(s, step);
            s'.accepted == s.accepted
            || (s'.accepted == s.accepted + [Acceptance(s.local, s.remote)] && Part(s.remote, s.local)
                 && s'.remote == s.remote)
  {
    hide Missing;
  }

  lemma NextKeepsReview(s: State, step: Step)
    requires ReviewInv(s)
    ensures ReviewInv(Next(s, step))
  {
  }

  lemma PartOfPart(a: Hashes, b: Hashes, c: Hashes)
    requires Part(a, b) && Part(b, c)
    ensures Part(a, c)
  {
  }

  lemma NextKeepsHistory(s: State, step: Step)
    requires HistoryInv(s)
    ensures HistoryInv(Next(s, step))
  {
    NextGrows(s, step);
    var s' := Next(s, step);
    hide Next, Part;
    forall i | 0 <= i < |s.accepted| ensures Part(s.accepted[i].remote, s'.remote) {
      PartOfPart(s.accepted[i].remote, s.remote, s'.remote);
    }
  }

  lemma NextKeepsInv(s: State, step: Step)
    requires Inv(s)
    ensures Inv(Next(s, step))
    ensures Part(s.remote, Next(s, step).remote)
  {
    NextGrows(s, step);
    NextKeepsReview(s, step);
    NextKeepsHistory(s, step);
    hide Next;
  }

  lemma {:induction false} ReachableInv(local: Hashes, steps: seq<Step>)
    ensures Inv(RunAll(Initial(local), steps))
  {
    if steps != [] {
      ReachableInv(local, steps[..|steps| - 1]);
      NextKeepsInv(RunAll(Initial(local), steps[..|steps| - 1]), steps[|steps| - 1]);
    }
  }

  // ---- Theorems ----

  /** Whatever happened before, when the guard accepts a build, everything published by then is in it with
      the same digest; and so is everything that was published at any earlier acceptance. */
  lemma AcceptedBuildsContainWhatWasPublished(local: Hashes, steps: seq<Step>, i: nat, j: nat)
    requires i <= j < |RunAll(Initial(local), steps).accepted|
    ensures var s := RunAll(Initial(local), steps);
            && Part(s.accepted[i].remote, s.accepted[j].local)
            && Part(s.accepted[j].remote, s.remote)
  {
    ReachableInv(local, steps);
  }

  /** While the staged files of an accepted build are uploaded, all that is published, but for what others
      add, stays part of that build, even if the build directory is rebuilt meanwhile. */
  lemma UploadsStayWithinReview(local: Hashes, steps: seq<Step>)
    requires RunAll(Initial(local), steps).reviewed.Some?
    ensures var s := RunAll(Initial(local), steps);
            && OwnPart(s.remote, s.foreign, s.reviewed.value)
            && (s.foreign == {} ==> Part(s.remote, s.reviewed.value))
  {
    ReachableInv(local, steps);
  }

  /** A run skips exactly when what is published equals the build, and stages exactly when it is a smaller
      part of it, the staging directory is clean and the build stays put. */
  lemma AnswersAreExact(s: State, steady: bool)
    ensures AnswerOf(s, steady) == Skip <==> s.remote == s.local
    ensures AnswerOf(s, steady) == Stage <==>
              Part(s.remote, s.local) && s.remote != s.local && s.staging == map[] && steady
  {
    if Part(s.remote, s.local) && Missing(s.local, s.remote) == map[] {
      assert forall f :: f in s.local ==> f in s.remote by {
        assert forall f :: f in s.local && f !in s.remote ==> f in Missing(s.local, s.remote);
      }
    }
  }

  /** What the record says: a run is entered in it exactly if it skips or stages, with the build and the
      files published then, and the files of others are those published since. */
  lemma RecordIsExact(s: State, step: Step)
    ensures var accepts := step.Run? && Part(s.remote, s.local)
                && (s.remote == s.local || (s.staging == map[] && step.steady));
            && Next(s, step).accepted == s.accepted + (if accepts then [Acceptance(s.local, s.remote)] else [])
            && Next(s, step).foreign == if accepts then {}
                 else s.foreign + (if step.PublishedByOthers? then {step.file} - s.remote.Keys else {})
  {
    if step.Run? {
      AnswersAreExact(s, step.steady);
    }
  }

  /** Each upload of a staged file leaves strictly fewer files missing. */
  lemma UploadShrinksMissing(local: Hashes, steps: seq<Step>, f: string)
    requires var s := RunAll(Initial(local), steps); s.reviewed.Some? && f in s.staging && f !in s.remote
    ensures var s := RunAll(Initial(local), steps);
            var before, after := Missing(s.reviewed.value, s.remote),
                Missing(s.reviewed.value, Next(s, Upload(f)).remote);
            f in before && after == before - {f} && |after| < |before|
  {
    ReachableInv(local, steps);
    var s := RunAll(Initial(local), steps);
    hide RunAll;
    assert f in s.reviewed.value;
    hide Inv;
    PublishedIsNotMissing(s.reviewed.value, s.remote, f, s.staging[f]);
  }

  lemma PublishedIsNotMissing(local: Hashes, remote: Hashes, f: string, digest: Digest)
    requires f in local && f !in remote
    ensures var before, after := Missing(local, remote), Missing(local, remote[f := digest]);
            f in before && after == before - {f} && |after| < |before|
  {
    var before, after := Missing(local, remote), Missing(local, remote[f := digest]);
    assert after == before - {f};
    hide Missing;
    OneLess(before, f);
  }

  lemma OneLess(m: Hashes, f: string)
    requires f in m
    ensures |m - {f}| == |m| - 1
  {
    var rest := m - {f};
    assert m == rest[f := m[f]];
  }

  function UploadAll(s: State, files: seq<string>): State {
    if files == [] then s else Next(UploadAll(s, files[..|files| - 1]), Upload(files[|files| - 1]))
  }

  lemma {:induction false} UploadedIsPublished(s: State, files: seq<string>)
    requires s.reviewed.Some?
    ensures var t := UploadAll(s, files);
            && t == s.(remote := t.remote)
            && (forall f :: f in t.remote <==> f in s.remote || (f in files && f in s.staging))
            && (forall f :: f in t.remote ==> t.remote[f] == if f in s.remote then s.remote[f] else s.staging[f])
  {
    if files != [] {
      UploadedIsPublished(s, files[..|files| - 1]);
      assert files == files[..|files| - 1] + [files[|files| - 1]];
    }
  }

  /** A release can always be resumed: from any state whose published files are part of the build, on a
      clean runner, one undisturbed run and the upload of what it staged, in any order, publish exactly
      the build, and the next run skips. */
  lemma ResumedRunCompletes(s: State, files: seq<string>, steady: bool, left: Hashes)
    requires Part(s.remote, s.local) && s.remote != s.local && s.staging == map[]
    requires forall f :: f in Missing(s.local, s.remote) ==> f in files
    ensures var t := UploadAll(Next(s, Run(true, left)), files);
            && t.remote == s.local
            && AnswerOf(t, steady) == Skip
  {
    AnswersAreExact(s, true);
    var staged := Next(s, Run(true, left));
    UploadedIsPublished(staged, files);
    var t := UploadAll(staged, files);
    assert t.remote == s.local;
    AnswersAreExact(t, steady);
  }

  ghost predicate Publishes(s: State, step: Step, f: string, digest: Digest) {
    && f !in s.remote
    && (step == PublishedByOthers(f, digest)
        || (step == Upload(f) && s.reviewed.Some? && f in s.staging && s.staging[f] == digest))
  }

  /** Files are published one at a time, by others or from the staged files of an accepted build, and never
      replaced; the build is changed by nothing but a rebuild. */
  lemma OnlyUploadsPublish(s: State, step: Step)
    ensures var s' := Next(s, step);
            s'.remote != s.remote ==>
              exists f, digest :: Publishes(s, step, f, digest) && s'.remote == s.remote[f := digest]
    ensures Next(s, step).local == if step.Rebuild? then step.local else s.local
  {
    match step
    case Upload(f) =>
      if s.reviewed.Some? && f in s.staging && f !in s.remote {
        assert Publishes(s, step, f, s.staging[f]);
      }
    case PublishedByOthers(f, digest) =>
      assert f !in s.remote ==> Publishes(s, step, f, digest);
    case _ =>
  }

  /** Nothing is uploaded after a crash, a rejection or a skip, until a run stages again; and where files
      are left staged and some are missing, no run stages before the runner is clean. */
  lemma OnlyStagedRunsUpload(s: State, stop: Step, files: seq<string>, steady: bool)
    requires stop.Crash? || stop.CleanRunner? || (stop.Run? && AnswerOf(s, stop.steady) != Stage)
    ensures var t := Next(s, stop);
            && UploadAll(t, files) == t
            && t.remote == s.remote
            && (stop.Crash? ==> t.staging == s.staging)
            && (stop.CleanRunner? ==> t.staging == map[])
            && (t.staging != map[] ==> AnswerOf(t, steady) != Stage)
  {
    NoUpload(Next(s, stop), files);
  }

  lemma {:induction false} NoUpload(s: State, files: seq<string>)
    requires s.reviewed.None?
    ensures UploadAll(s, files) == s
  {
    if files != [] {
      NoUpload(s, files[..|files| - 1]);
    }
  }

  /** A run can meet any build and any published files: the steps of others reach them all. */
  lemma AnyPublishedFilesCanArise(first: Hashes, local: Hashes, remote: Hashes) returns (steps: seq<Step>)
    ensures var s := RunAll(Initial(first), steps);
            s.local == local && s.remote == remote && s.staging == map[] && s.accepted == []
  {
    steps := PublishedSteps(first, remote);
    var rebuilt := steps + [Rebuild(local)];
    assert rebuilt[..|steps|] == steps;
    return rebuilt;
  }

  lemma PublishedSteps(first: Hashes, remote: Hashes) returns (steps: seq<Step>)
    ensures var s := RunAll(Initial(first), steps);
            s.remote == remote && s.staging == map[] && s.accepted == []
    decreases |remote|
  {
    if remote == map[] {
      return [];
    }
    var f :| f in remote;
    OneLess(remote, f);
    var before := PublishedSteps(first, remote - {f});
    steps := before + [PublishedByOthers(f, remote[f])];
    assert steps[..|before|] == before;
    assert remote == (remote - {f})[f := remote[f]];
  }

  // ---- One run of the program is one step of the protocol ----

  function Digests(d: Directory, hash: Content -> Digest): Hashes {
    if d.Files? then map f | f in d.files :: hash(d.files[f]) else map[]
  }

  // Runs the guard where the protocol is in state s. It is steady if the directory can be made and no
  // file that is missing changes while it is staged; left is what a failed run leaves behind.
  method RunOnce(ghost s: State, local: Hashes, remote: Option<Hashes>, source: Source, staging: StagingDirectory,
      hash: Content -> Digest, canCreate: bool) returns (d: Decision, ghost steady: bool, ghost left: Hashes)
    requires s.local == local && s.remote == OrEmpty(remote)
    requires staging.contents != NotDirectory && s.staging == Digests(staging.contents, hash)
    modifies staging
    ensures steady <==>
              && (old(staging.contents) == Absent ==> canCreate)
              && Steady(source, hash, local, MissingNames(local, OrEmpty(remote)))
    ensures Digests(staging.contents, hash) == Next(s, Run(steady, left)).staging
    ensures d.Rejected? <==> AnswerOf(s, steady) == Reject
    ensures d.Skipped? <==> AnswerOf(s, steady) == Skip
    ensures d.Staged? <==> AnswerOf(s, steady) == Stage
    ensures d.Staged? ==> Next(s, Run(steady, left)).reviewed == Some(local)
  {
    assert Usable(staging.contents) <==> s.staging == map[] by {
      UsableIsEmpty(staging.contents, hash);
    }
    hide Steady, Holds, Part, MissingNames, Digests, Missing, Usable;
    steady := (staging.contents == Absent ==> canCreate)
        && Steady(source, hash, local, MissingNames(local, OrEmpty(remote)));
    d := Guard(local, remote, source, staging, hash, canCreate);
    left := Digests(staging.contents, hash);
    AnswersAreExact(s, steady);
    if d.Staged? {
      HeldDigests(staging.contents, hash, local, s.remote);
    }
  }

  lemma HeldDigests(d: Directory, hash: Content -> Digest, local: Hashes, remote: Hashes)
    requires Holds(d, hash, local, MissingNames(local, remote))
    ensures Digests(d, hash) == Missing(local, remote)
  {
    AscendingOfLists(local.Keys - remote.Keys);
  }

  lemma UsableIsEmpty(d: Directory, hash: Content -> Digest)
    requires d != NotDirectory
    ensures Usable(d) <==> Digests(d, hash) == map[]
  {
    if d.Files? && d.files != map[] {
      var f :| f in d.files;
      assert f in Digests(d, hash);
    }
  }
}
