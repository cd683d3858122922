/**
 * The checkpoint packer as an object: a StateManager over a shared filesystem, with the
 * paths supplied by the file-structure manager, the mapping of unpacked files and the archive
 * prefix, and methods that change the filesystem step by step. Each method's effect is the
 * corresponding function of module Checkpoint, where its properties are proved.
 */
module StateStore {
  import opened Common
  import opened Files
  import Checkpoint

  /** The filesystem the packer works on; shared, so that what a failing call has already
      done stays done. */
  class FileSystem {
    var files: FileMap

    constructor (files: FileMap)
      ensures this.files == files
    {
      this.files := files;
    }
  }

  class StateManager {
    const fs: FileSystem
    /** The paths the file-structure manager supplies. */
    const weightsDir: string
    const weightsFile: string
    const stateFile: string
    /** Logical name to path of the files produced by the last unpack. */
    var files: map<string, string>
    /** The archive prefix; None for no prefix. */
    var prefix: Option<string>

    /** The mapping is empty, or holds the two paths unpack records. */
    ghost predicate Valid()
      reads this
    {
      files == map[] || files == Checkpoint.UnpackedPaths(weightsDir)
    }

    /** The archive path for the current prefix. */
    function ResultFile(): string
      reads this
    {
      Checkpoint.ArchivePath(weightsDir, prefix)
    }

    /** The field assignments of the constructor, before its auto-backup. */
    constructor Init(fs: FileSystem, weightsDir: string, weightsFile: string, stateFile: string)
      ensures this.fs == fs && this.weightsDir == weightsDir
      ensures this.weightsFile == weightsFile && this.stateFile == stateFile
      ensures files == map[] && prefix == None
    {
      this.fs := fs;
      this.weightsDir := weightsDir;
      this.weightsFile := weightsFile;
      this.stateFile := stateFile;
      files := map[];
      prefix := None;
    }

    /**
     * The constructor: when both canonical files exist it packs them under the prefix
     * "prev_start"; then it stores the caller's prefix. A failing auto-backup leaves the
     * filesystem as that pack left it and raises.
     */
    static method Create(fs: FileSystem, weightsDir: string, weightsFile: string, stateFile: string,
                         prefix: Option<string>)
      returns (r: Result<StateManager, Checkpoint.IoError>)
      modifies fs
      ensures var backup := weightsFile in old(fs.files) && stateFile in old(fs.files);
        var packed := Checkpoint.Pack(old(fs.files), weightsFile, stateFile,
                                      Checkpoint.ArchivePath(weightsDir, Some("prev_start")));
        (if backup then fs.files == packed.files else fs.files == old(fs.files)) &&
        (r.Err? <==> backup && packed.error.Some?) &&
        (r.Err? ==> packed.error == Some(r.error))
      ensures r.Ok? ==>
        fresh(r.value) && r.value.fs == fs && r.value.weightsDir == weightsDir &&
        r.value.weightsFile == weightsFile && r.value.stateFile == stateFile &&
        r.value.prefix == prefix && r.value.files == map[] && r.value.Valid()
    {
      var m := new StateManager.Init(fs, weightsDir, weightsFile, stateFile);
      if weightsFile in fs.files && stateFile in fs.files {
        m.prefix := Some("prev_start");
        var err := m.Pack();
        if err.Some? {
          return Err(err.value);
        }
        m.prefix := None;
      }
      m.prefix := prefix;
      r := Ok(m);
    }

    /** rm_file: remove the file if it exists. */
    method RemoveFile(path: string)
      modifies fs
      ensures fs.files == old(fs.files) - {path}
    {
      if path in fs.files {
        fs.files := fs.files - {path};
      }
    }

    /** rename_file: drop the backup, then move the file to the backup path if it exists. */
    method RenameFile(path: string)
      modifies fs
      ensures fs.files == Checkpoint.Rotate(old(fs.files), path)
    {
      var target := Checkpoint.BackupPath(path);
      RemoveFile(target);
      if path in fs.files {
        fs.files := (fs.files - {path})[target := fs.files[path]];
      }
    }

    /** pack: rotate the archive, write both files into a new one, remove the originals. */
    method Pack() returns (err: Option<Checkpoint.IoError>)
      modifies fs
      ensures Checkpoint.Step(fs.files, err) ==
        Checkpoint.Pack(old(fs.files), weightsFile, stateFile, ResultFile())
    {
      var resultFile := ResultFile();
      RenameFile(resultFile);
      var members: map<string, Content> := map[];
      fs.files := fs.files[resultFile := Archive(members)];
      if weightsFile !in fs.files {
        return Some(Checkpoint.FileNotFound(weightsFile));
      }
      members := members[Basename(weightsFile) := fs.files[weightsFile]];
      fs.files := fs.files[resultFile := Archive(members)];
      if stateFile !in fs.files {
        return Some(Checkpoint.FileNotFound(stateFile));
      }
      members := members[Basename(stateFile) := fs.files[stateFile]];
      fs.files := fs.files[resultFile := Archive(members)];
      RemoveFile(weightsFile);
      RemoveFile(stateFile);
      err := None;
    }

    /** unpack: record the two expected paths, then extract the archive into the weights
        directory. The paths are recorded even when the archive cannot be opened. */
    method Unpack() returns (err: Option<Checkpoint.IoError>)
      requires Valid()
      modifies this, fs
      ensures Valid() && files == Checkpoint.UnpackedPaths(weightsDir) && prefix == old(prefix)
      ensures Checkpoint.Step(fs.files, err) ==
        Checkpoint.Unpack(old(fs.files), weightsDir, old(ResultFile()))
    {
      files := files["weights_file" := Join(weightsDir, "weights.pth")];
      files := files["state_file" := Join(weightsDir, "state.pth")];
      var resultFile := ResultFile();
      if resultFile !in fs.files {
        return Some(Checkpoint.FileNotFound(resultFile));
      }
      match fs.files[resultFile]
      case Bytes(_) =>
        return Some(Checkpoint.BadZipFile(resultFile));
      case Archive(members) =>
        fs.files := Checkpoint.Extract(fs.files, weightsDir, members);
      err := None;
    }

    /** clear_files: remove both recorded paths if they exist, then reset the mapping. */
    method ClearFiles() returns (err: Option<Checkpoint.IoError>)
      requires Valid()
      modifies this, fs
      ensures Valid() && prefix == old(prefix)
      ensures Checkpoint.Cleared(fs.files, files, err) ==
        Checkpoint.ClearFiles(old(fs.files), old(files))
    {
      if "weights_file" !in files {
        return Some(Checkpoint.KeyError("weights_file"));
      }
      RemoveFile(files["weights_file"]);
      if "state_file" !in files {
        return Some(Checkpoint.KeyError("state_file"));
      }
      RemoveFile(files["state_file"]);
      files := map[];
      err := None;
    }

    /** get_files. */
    method GetFiles() returns (m: map<string, string>)
      requires Valid()
      ensures m == files
      ensures m == map[] || (m.Keys == {"weights_file", "state_file"} &&
        m["weights_file"] == Join(weightsDir, "weights.pth") && m["state_file"] == Join(weightsDir, "state.pth"))
    {
      m := files;
    }
  }
}
