/**
 * What the checkpoint packer's operations do to the filesystem, as functions of the files
 * before the call, and the properties of those effects: the archive name, the single backup
 * generation, the archive's members, the failure cases, and pack followed by unpack.
 */
module Checkpoint {
  import opened Common
  import opened Files

  /** What the packer's operations can raise. */
  datatype IoError =
    | FileNotFound(path: string)   // a file to read or an archive to open does not exist
    | BadZipFile(path: string)     // the file to unpack is not a zip archive
    | KeyError(key: string)        // a recorded path is missing from the files mapping

  /** The files after an operation, and what it raised, if anything. */
  datatype Step = Step(files: FileMap, error: Option<IoError>)

  /** The name of the archive inside the weights directory, after the optional prefix. */
  function ArchiveName(prefix: Option<string>): string
  {
    (if prefix.Some? then prefix.value + "_" else "") + "state.zip"
  }

  /** __construct_result_file: the archive path for a prefix. */
  function ArchivePath(dir: string, prefix: Option<string>): string
  {
    Join(dir, ArchiveName(prefix))
  }

  /** Where rename_file moves an existing archive. */
  function BackupPath(archive: string): string
  {
    archive + ".old"
  }

  /** The two paths unpack records, whatever the archive holds. */
  function UnpackedPaths(dir: string): map<string, string>
  {
    map["weights_file" := Join(dir, "weights.pth"), "state_file" := Join(dir, "state.pth")]
  }

  // ---------------------------------------------------------------------------------------
  // The operations
  // ---------------------------------------------------------------------------------------

  /** rename_file: drop any backup, then move an existing archive to the backup path. */
  function Rotate(before: FileMap, archive: string): FileMap
  {
    var cleared := before - {BackupPath(archive)};
    if archive in cleared then (cleared - {archive})[BackupPath(archive) := cleared[archive]]
    else cleared
  }

  /**
   * pack: rotate, create the archive (an empty one exists as soon as it is created for
   * writing), add the weights file and then the state file under their base names, and
   * remove both originals. A missing source file raises when it is added; the archive is
   * closed with what it holds by then, and nothing is removed.
   */
  function Pack(before: FileMap, weightsFile: string, stateFile: string, archive: string): Step
  {
    var created := Rotate(before, archive)[archive := Archive(map[])];
    if weightsFile !in created then Step(created, Some(FileNotFound(weightsFile)))
    else
      var one := map[Basename(weightsFile) := created[weightsFile]];
      var written := created[archive := Archive(one)];
      if stateFile !in written then Step(written, Some(FileNotFound(stateFile)))
      else
        var both := one[Basename(stateFile) := written[stateFile]];
        Step(written[archive := Archive(both)] - {weightsFile} - {stateFile}, None)
  }

  /** The paths extractall writes for the members of an archive. */
  function ExtractedPaths(dir: string, members: map<string, Content>): set<string>
  {
    set m | m in members :: Join(dir, m)
  }

  /** extractall into `dir`: each member is written at Join(dir, member), replacing a file of
      that name; every other file is left as it was. */
  function Extract(before: FileMap, dir: string, members: map<string, Content>): (after: FileMap)
    ensures after.Keys == before.Keys + ExtractedPaths(dir, members)
    ensures forall m :: m in members ==> after[Join(dir, m)] == members[m]
    ensures forall p :: p in before && p !in ExtractedPaths(dir, members) ==> after[p] == before[p]
  {
    var front := JoinPrefix(dir);
    var after := map p | p in before.Keys + ExtractedPaths(dir, members) ::
      if |front| <= |p| && p[..|front|] == front && p[|front|..] in members then members[p[|front|..]]
      else before[p];
    assert forall m :: m in members ==> Join(dir, m)[|front|..] == m;
    assert forall p :: p in after && |front| <= |p| && p[..|front|] == front && p[|front|..] in members ==>
      p == Join(dir, p[|front|..]) && p in ExtractedPaths(dir, members);
    after
  }

  /** unpack: open the archive and extract all its members into the weights directory. */
  function Unpack(before: FileMap, dir: string, archive: string): Step
  {
    if archive !in before then Step(before, Some(FileNotFound(archive)))
    else match before[archive]
      case Bytes(_) => Step(before, Some(BadZipFile(archive)))
      case Archive(members) => Step(Extract(before, dir, members), None)
  }

  /** The files and the recorded paths after clear_files, and what it raised, if anything. */
  datatype Cleared = Cleared(files: FileMap, recorded: map<string, string>, error: Option<IoError>)

  /** clear_files: remove both recorded paths (each only if it exists), then forget them. A
      recorded path that is missing from the mapping raises KeyError. */
  function ClearFiles(before: FileMap, recorded: map<string, string>): Cleared
  {
    if "weights_file" !in recorded then Cleared(before, recorded, Some(KeyError("weights_file")))
    else
      var first := before - {recorded["weights_file"]};
      if "state_file" !in recorded then Cleared(first, recorded, Some(KeyError("state_file")))
      else Cleared(first - {recorded["state_file"]}, map[], None)
  }

  // ---------------------------------------------------------------------------------------
  // Names
  // ---------------------------------------------------------------------------------------

  /** Different prefixes (including no prefix) give different archives. */
  lemma ArchivePathInjective(dir: string, p: Option<string>, q: Option<string>)
    requires ArchivePath(dir, p) == ArchivePath(dir, q)
    ensures p == q
  {
    JoinInjective(dir, ArchiveName(p), ArchiveName(q));
    var a, b := ArchiveName(p), ArchiveName(q);
    if p.Some? && q.Some? {
      assert p.value == a[..|a| - 10] && q.value == b[..|b| - 10];
    }
  }

  /** A backup never has the name of an archive, and neither is one of the canonical files. */
  lemma NamesDistinct(dir: string, p: Option<string>, q: Option<string>)
    ensures BackupPath(ArchivePath(dir, p)) != ArchivePath(dir, q)
    ensures Join(dir, "weights.pth") !in {ArchivePath(dir, p), BackupPath(ArchivePath(dir, p))}
    ensures Join(dir, "state.pth") !in {ArchivePath(dir, p), BackupPath(ArchivePath(dir, p))}
    ensures Join(dir, "weights.pth") != Join(dir, "state.pth")
  {
    var a := ArchivePath(dir, p);
    var b := ArchivePath(dir, q);
    assert BackupPath(a)[|BackupPath(a)| - 1] == 'd';
    assert b[|b| - 1] == 'p';
    var w := Join(dir, "weights.pth");
    var s := Join(dir, "state.pth");
    assert w[|w| - 1] == 'h' && s[|s| - 1] == 'h';
    if w == s {
      JoinInjective(dir, "weights.pth", "state.pth");
    }
  }

  // ---------------------------------------------------------------------------------------
  // pack
  // ---------------------------------------------------------------------------------------

  /** rename_file moves an existing archive to its backup, drops an older backup, and
      changes nothing else. */
  lemma RotateSpec(before: FileMap, archive: string)
    ensures var after := Rotate(before, archive);
      archive !in after &&
      (BackupPath(archive) in after <==> archive in before) &&
      (archive in before ==> after[BackupPath(archive)] == before[archive]) &&
      forall p :: p != archive && p != BackupPath(archive) ==>
        (p in after <==> p in before) && (p in before ==> after[p] == before[p])
  {
    assert |BackupPath(archive)| != |archive|;
  }

  /**
   * Backup rotation, whether pack succeeds or not (for sources that are neither the archive
   * nor its backup): the backup exists afterwards exactly when an archive existed before,
   * and then holds that archive's contents; any earlier backup is gone; no other file
   * except the archive and the two sources changes.
   */
  lemma PackRotation(before: FileMap, weightsFile: string, stateFile: string, archive: string)
    requires weightsFile != BackupPath(archive) && stateFile != BackupPath(archive)
    ensures var after := Pack(before, weightsFile, stateFile, archive).files;
      (BackupPath(archive) in after <==> archive in before) &&
      (archive in before ==> after[BackupPath(archive)] == before[archive]) &&
      forall p :: p !in {archive, BackupPath(archive), weightsFile, stateFile} ==>
        (p in after <==> p in before) && (p in before ==> after[p] == before[p])
  {
    RotateSpec(before, archive);
    PackKeepsOthers(before, weightsFile, stateFile, archive);
  }

  /** Apart from the archive and the two sources, pack leaves every file as rename_file left it. */
  lemma PackKeepsOthers(before: FileMap, weightsFile: string, stateFile: string, archive: string)
    ensures var rotated := Rotate(before, archive);
      var after := Pack(before, weightsFile, stateFile, archive).files;
      forall p :: p != archive && p != weightsFile && p != stateFile ==>
        (p in after <==> p in rotated) && (p in rotated ==> after[p] == rotated[p])
  {
  }

  /**
   * A pack whose sources exist (and are neither the archive nor its backup) succeeds; the
   * archive then holds exactly the two base names with the two files' contents, and both
   * originals are gone. When the two base names coincide the state file's entry wins.
   */
  lemma PackSuccess(before: FileMap, weightsFile: string, stateFile: string, archive: string)
    requires weightsFile !in {archive, BackupPath(archive)} && stateFile !in {archive, BackupPath(archive)}
    ensures var s := Pack(before, weightsFile, stateFile, archive);
      (s.error == None <==> weightsFile in before && stateFile in before) &&
      (s.error == None ==>
        archive in s.files &&
        s.files[archive] == Archive(map[Basename(weightsFile) := before[weightsFile],
                                        Basename(stateFile) := before[stateFile]]) &&
        weightsFile !in s.files && stateFile !in s.files)
  {
  }

  /**
   * A missing source fails at the write step: a missing weights file leaves an empty
   * archive, a missing state file an archive with the weights entry only, and no source is
   * removed. Rotation has already happened (see PackRotation).
   */
  lemma PackFailure(before: FileMap, weightsFile: string, stateFile: string, archive: string)
    requires weightsFile !in {archive, BackupPath(archive)} && stateFile !in {archive, BackupPath(archive)}
    ensures var s := Pack(before, weightsFile, stateFile, archive);
      (weightsFile !in before ==>
        s.error == Some(FileNotFound(weightsFile)) && s.files[archive] == Archive(map[])) &&
      (weightsFile !in before && stateFile in before ==>
        stateFile in s.files && s.files[stateFile] == before[stateFile]) &&
      (weightsFile in before && stateFile !in before ==>
        s.error == Some(FileNotFound(stateFile)) &&
        s.files[archive] == Archive(map[Basename(weightsFile) := before[weightsFile]]) &&
        weightsFile in s.files && s.files[weightsFile] == before[weightsFile])
  {
  }

  // ---------------------------------------------------------------------------------------
  // unpack and clear_files
  // ---------------------------------------------------------------------------------------

  /** unpack fails when the archive is missing or not a zip and then changes nothing;
      otherwise every member lands in the directory and nothing else changes. */
  lemma UnpackSpec(before: FileMap, dir: string, archive: string)
    ensures var s := Unpack(before, dir, archive);
      (archive !in before ==> s == Step(before, Some(FileNotFound(archive)))) &&
      (archive in before && before[archive].Bytes? ==> s == Step(before, Some(BadZipFile(archive)))) &&
      (archive in before && before[archive].Archive? ==>
        var members := before[archive].members;
        s.error == None &&
        (forall m :: m in members ==> s.files[Join(dir, m)] == members[m]) &&
        (forall p :: p in before && p !in ExtractedPaths(dir, members) ==> s.files[p] == before[p]) &&
        s.files.Keys == before.Keys + ExtractedPaths(dir, members))
  {
  }

  /**
   * pack followed by unpack with the same prefix, when the canonical files are weights.pth
   * and state.pth in the weights directory: both steps succeed and both files are back with
   * their original contents, beside the new archive.
   */
  lemma PackUnpackRoundTrip(before: FileMap, dir: string, prefix: Option<string>)
    requires Join(dir, "weights.pth") in before && Join(dir, "state.pth") in before
    ensures var w, s := Join(dir, "weights.pth"), Join(dir, "state.pth");
      var archive := ArchivePath(dir, prefix);
      var packed := Pack(before, w, s, archive);
      var unpacked := Unpack(packed.files, dir, archive);
      packed.error == None && unpacked.error == None &&
      w in unpacked.files && unpacked.files[w] == before[w] &&
      s in unpacked.files && unpacked.files[s] == before[s] &&
      archive in unpacked.files && unpacked.files[archive] == packed.files[archive]
  {
    var w, s := Join(dir, "weights.pth"), Join(dir, "state.pth");
    PackCanonical(before, dir, prefix);
    UnpackCanonical(Pack(before, w, s, ArchivePath(dir, prefix)).files, dir, prefix, before[w], before[s]);
  }

  /** Unpacking an archive that holds weights.pth and state.pth writes them back to the
      canonical paths and leaves the archive in place. */
  lemma UnpackCanonical(files: FileMap, dir: string, prefix: Option<string>, weights: Content, state: Content)
    requires ArchivePath(dir, prefix) in files
    requires files[ArchivePath(dir, prefix)] == Archive(map["weights.pth" := weights, "state.pth" := state])
    ensures var archive := ArchivePath(dir, prefix);
      var unpacked := Unpack(files, dir, archive);
      unpacked.error == None &&
      Join(dir, "weights.pth") in unpacked.files && unpacked.files[Join(dir, "weights.pth")] == weights &&
      Join(dir, "state.pth") in unpacked.files && unpacked.files[Join(dir, "state.pth")] == state &&
      archive in unpacked.files && unpacked.files[archive] == files[archive]
  {
    var members := map["weights.pth" := weights, "state.pth" := state];
    NamesDistinct(dir, prefix, prefix);
    assert "weights.pth" in members && "state.pth" in members;
  }

  /**
   * Packing the canonical files weights.pth and state.pth of the weights directory, when both
   * exist, succeeds under any prefix: the archive holds both under those names, and they are
   * gone.
   */
  lemma PackCanonical(before: FileMap, dir: string, prefix: Option<string>)
    requires Join(dir, "weights.pth") in before && Join(dir, "state.pth") in before
    ensures var w, s := Join(dir, "weights.pth"), Join(dir, "state.pth");
      var archive := ArchivePath(dir, prefix);
      var packed := Pack(before, w, s, archive);
      packed.error == None && archive in packed.files &&
      packed.files[archive] == Archive(map["weights.pth" := before[w], "state.pth" := before[s]]) &&
      w !in packed.files && s !in packed.files
  {
    var w, s := Join(dir, "weights.pth"), Join(dir, "state.pth");
    var archive := ArchivePath(dir, prefix);
    NamesDistinct(dir, prefix, prefix);
    BasenameOfJoin(dir, "weights.pth");
    BasenameOfJoin(dir, "state.pth");
    PackSuccess(before, w, s, archive);
  }

  /**
   * The constructor's auto-backup: when both canonical files exist, packing them under the
   * prefix "prev_start" succeeds, prev_start_state.zip then holds both, and they are gone.
   */
  lemma AutoBackup(before: FileMap, dir: string)
    requires Join(dir, "weights.pth") in before && Join(dir, "state.pth") in before
    ensures var w, s := Join(dir, "weights.pth"), Join(dir, "state.pth");
      var archive := Join(dir, "prev_start_state.zip");
      var packed := Pack(before, w, s, ArchivePath(dir, Some("prev_start")));
      ArchivePath(dir, Some("prev_start")) == archive &&
      packed.error == None && archive in packed.files &&
      packed.files[archive] == Archive(map["weights.pth" := before[w], "state.pth" := before[s]]) &&
      w !in packed.files && s !in packed.files
  {
    PackCanonical(before, dir, Some("prev_start"));
    PrevStartName(dir);
  }

  /** The auto-backup's archive is prev_start_state.zip. */
  lemma PrevStartName(dir: string)
    ensures ArchivePath(dir, Some("prev_start")) == Join(dir, "prev_start_state.zip")
  {
  }

  /** clear_files before any unpack raises KeyError and changes nothing. */
  lemma ClearFilesFresh(before: FileMap)
    ensures ClearFiles(before, map[]) == Cleared(before, map[], Some(KeyError("weights_file")))
  {
  }

  /** clear_files after an unpack removes both recorded paths, forgets them, and leaves
      every other file alone. */
  lemma ClearFilesAfterUnpack(before: FileMap, dir: string)
    ensures var c := ClearFiles(before, UnpackedPaths(dir));
      c.error == None && c.recorded == map[] &&
      Join(dir, "weights.pth") !in c.files && Join(dir, "state.pth") !in c.files &&
      forall p :: p in before && p != Join(dir, "weights.pth") && p != Join(dir, "state.pth") ==>
        p in c.files && c.files[p] == before[p]
  {
  }
}
