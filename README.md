# Augmentation gate and checkpoint packer, in Dafny

This project models two parts of an image-model training pipeline.

**Augmentations** (`tonet/data_conveyor/augmentations.py`). Each augmentation is built from
its section of a declarative configuration. It holds a name and an integer percentage. When it
is called with an image, it draws an integer in [1, 100] and applies its process only when
the draw is at most the percentage. The model covers:

- the base and per-class constructors, with the key errors they raise;
- the registry of the thirteen keys;
- the configuration each augmentation reports back (`get_config`);
- the gate (`__call__`), with the draw passed in;
- the processes whose logic is integer or index arithmetic: the two flips, the centre and
  random crops (including the parsing of `size`), the target dimensions of the resize, and the
  saturating brightness add.

Images are `ImageOps.Image<P>`: a width and a sequence of rows of pixels, where `P` stands for
a pixel's channel vector. Slicing follows Python's rules, including negative bounds and
clamping.

**Checkpoint packer** (`tonet/data_processor/state_manager.py`). `StateManager` bundles the
weights file and the optimizer-state file into one zip archive, optionally prefixed, and keeps
one `.old` backup generation. It unpacks the archive into the weights directory, records the
two expected paths, and clears them again. On construction it backs up existing raw files
under the prefix `prev_start`.

- The filesystem is a shared `FileSystem` object holding a map from path to contents.
- A file's contents are plain bytes or an archive, which is a map from member name to
  contents.
- Each method of the `StateManager` class changes that map step by step, as the source does.
- Each method's `ensures` ties the new map to a function of module `Checkpoint`. The lemmas
  about those functions state the naming, rotation, packing, failure and round-trip
  properties.

Files: `common.dfy` (Option, Result), `image_ops.dfy`, `augmentations.dfy`, `files.dfy`
(paths and contents), `checkpoint.dfy` (the packer's effects as functions, and their lemmas),
`state_store.dfy` (the classes).

## Model

| member | source | states |
|---|---|---|
| `ImageOps.HorizontalFlip` | tonet/data_conveyor/augmentations.py:63-64 | dimensions are kept; pixel (i, j) of the result is pixel (i, width-1-j) of the input |
| `ImageOps.VerticalFlip` | tonet/data_conveyor/augmentations.py:74-75 | dimensions are kept; pixel (i, j) of the result is pixel (height-1-i, j) of the input |
| `ImageOps.HorizontalFlipInvolutive` | tonet/data_conveyor/augmentations.py:63-64 | flipping horizontally twice gives back the image |
| `ImageOps.VerticalFlipInvolutive` | tonet/data_conveyor/augmentations.py:74-75 | flipping vertically twice gives back the image |
| `ImageOps.SliceBound` | tonet/data_conveyor/augmentations.py:178 | a slice bound lies in [0, n]: a non-negative one is clamped to n, a negative one counts from the end and is clamped to 0 |
| `ImageOps.Slice` | tonet/data_conveyor/augmentations.py:178 | Python's `s[start:stop]`: its length, its elements, and that it is the plain subsequence when 0 <= start <= stop <= n |
| `ImageOps.Window` | tonet/data_conveyor/augmentations.py:176-178 | `data[y1:y2, x1:x2, :]` has the sliced height and width, and pixel (i, j) comes from the clamped row and column offsets |
| `ImageOps.CentralCrop` | tonet/data_conveyor/augmentations.py:173-179 | CentralCrop.process for integer sizes: the window from ((w-width)//2, (h-height)//2) of the given size, with Python slicing |
| `ImageOps.RandomCrop` | tonet/data_conveyor/augmentations.py:191-198 | RandomCrop.process for integer sizes: the offsets are the draws when the image is larger on that axis, else 0, then the window of the given size |
| `ImageOps.CentralCropFits` | tonet/data_conveyor/augmentations.py:173-179 | a window that fits is exactly height x width at dx = (w-width)//2, dy = (h-height)//2; the margins on either side differ by at most one |
| `ImageOps.CentralCropFullSize` | tonet/data_conveyor/augmentations.py:173-179 | a crop to the image's own size returns the image unchanged |
| `ImageOps.CentralCropOversize` | tonet/data_conveyor/augmentations.py:173-179 | a crop wider than the image by d <= 2w columns does not clamp: it keeps the rightmost ceil(d/2) columns |
| `ImageOps.RandomCropWindow` | tonet/data_conveyor/augmentations.py:191-198 | the offsets lie in [0, w-width] (0 when the window is not smaller than the image); the window stays inside the image; the result is min(height,h) x min(width,w) |
| `ImageOps.MinEdgeTarget` | tonet/data_conveyor/augmentations.py:144-149 | resize_by_min_edge's target (width, height): the shorter edge (rows on a tie) becomes size, the longer size*longer//shorter; ZeroDivisionError for a zero edge |
| `ImageOps.MinEdgeTargetSpec` | tonet/data_conveyor/augmentations.py:144-149 | the shorter edge (the rows on a tie) becomes `size`; the longer becomes size*longer//shorter; it is never below `size` for size >= 0; a zero edge raises |
| `ImageOps.Brighten` | tonet/data_conveyor/augmentations.py:231-233 | the result never exceeds 255; for b >= 0 it is min(x+b, 255); for b < 0 it is x+b, with no lower clamp |
| `ImageOps.BrightenImage` | tonet/data_conveyor/augmentations.py:233 | the dimensions and every pixel's channel count are kept, and every channel is brightened by the same offset |
| `Augmentations.OwnConfig` | tonet/data_conveyor/augmentations.py:59-277 | each class's `_get_config` returns exactly the parameter names its constructor reads, and never "percentage" |
| `Augmentations.Param` | tonet/data_conveyor/augmentations.py:33-34 | config[name][key], raising KeyError for the missing section, else for the missing parameter |
| `Augmentations.Percentage` | tonet/data_conveyor/augmentations.py:10-12 | the base constructor's read of config[name]["percentage"]; a non-integer value is rejected |
| `Augmentations.NewHorizontalFlip` | tonet/data_conveyor/augmentations.py:59-61 | HorizontalFlip's constructor: name "hflip", the configured percentage |
| `Augmentations.NewVerticalFlip` | tonet/data_conveyor/augmentations.py:70-72 | VerticalFlip's constructor: name "vflip", the configured percentage |
| `Augmentations.NewGaussNoise` | tonet/data_conveyor/augmentations.py:81-87 | GaussNoise's constructor: reads mean, var and interval after the percentage |
| `Augmentations.NewSNPNoise` | tonet/data_conveyor/augmentations.py:101-106 | SNPNoise's constructor: reads s_vs_p and amount after the percentage |
| `Augmentations.NewBlur` | tonet/data_conveyor/augmentations.py:127-131 | Blur's constructor: reads ksize after the percentage |
| `Augmentations.NewResize` | tonet/data_conveyor/augmentations.py:152-158 | Resize's constructor: the percentage must be present, size is read, then the percentage is overwritten with 100 |
| `Augmentations.NewCentralCrop` | tonet/data_conveyor/augmentations.py:167-171 | CentralCrop's constructor: reads size after the percentage |
| `Augmentations.NewRandomCrop` | tonet/data_conveyor/augmentations.py:185-189 | RandomCrop's constructor: reads size after the percentage |
| `Augmentations.NewRandomRotate` | tonet/data_conveyor/augmentations.py:204-207 | RandomRotate's constructor: reads interval after the percentage |
| `Augmentations.NewRandomBrightness` | tonet/data_conveyor/augmentations.py:225-229 | RandomBrightness's constructor: reads interval after the percentage |
| `Augmentations.NewRandomContrast` | tonet/data_conveyor/augmentations.py:239-242 | RandomContrast's constructor: reads interval after the percentage |
| `Augmentations.NewNormalize` | tonet/data_conveyor/augmentations.py:252-256 | Normalize's constructor: the percentage must be present and is overwritten with 100 |
| `Augmentations.NewToPyTorch` | tonet/data_conveyor/augmentations.py:265-268 | ToPyTorch's constructor: the percentage must be present and is overwritten with 100 |
| `Augmentations.Registry` | tonet/data_conveyor/augmentations.py:280-292 | the thirteen registered keys, each mapped to its class's constructor |
| `Augmentations.Instantiate` | tonet/data_conveyor/augmentations.py:280-292 | looks the key up in the registry and constructs that class; an unregistered key is rejected |
| `Augmentations.GetConfig` | tonet/data_conveyor/augmentations.py:49-56 | {name: {"percentage": p} updated with the class's own parameters} |
| `Augmentations.RegisteredNames` | tonet/data_conveyor/augmentations.py:280-292 | every registered key constructs an augmentation whose name is that key and whose class belongs to it |
| `Augmentations.MissingSectionFails` | tonet/data_conveyor/augmentations.py:33-34 | a registered key without a configuration section raises KeyError for that key; an unregistered key is rejected |
| `Augmentations.ConstructionSucceeds` | tonet/data_conveyor/augmentations.py:10-12 | construction succeeds exactly when the section, its percentage and all the class's parameters are present (and a gated class's percentage is an integer) |
| `Augmentations.ConfigReflectsConstruction` | tonet/data_conveyor/augmentations.py:49-56 | `get_config` gives one section named by the key, holding "percentage" and the class's parameters with the configured values; the percentage is 100 for Resize, Normalize and ToPyTorch |
| `Augmentations.ConfigRoundTrip` | tonet/data_conveyor/augmentations.py:49-56 | building the same class from `get_config`'s result gives back the same name, percentage and parameters |
| `Augmentations.Call` | tonet/data_conveyor/augmentations.py:14-23 | __call__ with the draw randint(1, 100) passed in: process(data) when the draw is at most the percentage, else data |
| `Augmentations.CallSpec` | tonet/data_conveyor/augmentations.py:14-23 | the gate returns process(data) exactly when the draw is at most the percentage, otherwise the data itself; so 100 always processes and 0 never does |
| `Augmentations.FixedAlwaysApplied` | tonet/data_conveyor/augmentations.py:152-158 | Resize, Normalize and ToPyTorch end with percentage 100 whatever is configured, and are applied on every draw |
| `Augmentations.ApplyingDrawsCount` | tonet/data_conveyor/augmentations.py:20-23 | of the draws 1..n, exactly min(max(percentage, 0), n) apply the augmentation; for n = 100 that is the probability percentage/100 |
| `Augmentations.ProcessHorizontalFlip` | tonet/data_conveyor/augmentations.py:63-64 | HorizontalFlip.process: the horizontal flip of the image |
| `Augmentations.ProcessVerticalFlip` | tonet/data_conveyor/augmentations.py:74-75 | VerticalFlip.process: the vertical flip of the image |
| `Augmentations.DeterministicProcess` | tonet/data_conveyor/augmentations.py:20-21 | self.process for the classes that draw nothing: the two flips, and the central crop with its stored size |
| `Augmentations.CallDispatches` | tonet/data_conveyor/augmentations.py:14-23 | calling an augmentation built under hflip, vflip or ccrop flips or centre-crops the image when the draw lets it run, and returns it unchanged otherwise |
| `Augmentations.CropSize` | tonet/data_conveyor/augmentations.py:171 | a two-element list size gives (width, height), anything else gives (size, size) |
| `Augmentations.ProcessCentralCrop` | tonet/data_conveyor/augmentations.py:173-179 | CentralCrop.process on the parsed size; a size that is not an integer raises TypeError |
| `Augmentations.ProcessRandomCrop` | tonet/data_conveyor/augmentations.py:191-198 | RandomCrop.process on the parsed size with the offset draws passed in; a size that is not an integer raises TypeError |
| `Augmentations.CentralCropProcessSpec` | tonet/data_conveyor/augmentations.py:167-179 | a scalar size s crops s x s; a list [width, height] crops height rows by width columns; another literal raises TypeError |
| `Augmentations.RandomCropProcessSpec` | tonet/data_conveyor/augmentations.py:185-198 | a scalar or [width, height] size gives a window of min(height,h) rows by min(width,w) columns |
| `Augmentations.ResizeTarget` | tonet/data_conveyor/augmentations.py:156-161 | Resize.process's target: a two-element list as it is, a scalar through resize_by_min_edge |
| `Augmentations.ResizeTargetSpec` | tonet/data_conveyor/augmentations.py:140-161 | a list [w, h] gives exactly those dimensions; a scalar goes through the shorter-edge rule and fails only on a zero edge |
| `Augmentations.IntervalBounds` | tonet/data_conveyor/augmentations.py:232 | randint(interval[0], interval[1])'s arguments: TypeError for a non-list or non-integer bounds, IndexError for fewer than two, ValueError when the first exceeds the second |
| `Augmentations.ProcessRandomBrightness` | tonet/data_conveyor/augmentations.py:231-233 | succeeds exactly when the interval is two ordered integers, and then is the whole image brightened by the drawn offset: dimensions kept, no channel above 255 |
| `Files.Join` | tonet/data_processor/state_manager.py:24-25 | `os.path.join(dir, name)` ends with `name` |
| `Files.JoinInjective` | tonet/data_processor/state_manager.py:66-68 | within one directory, different names give different paths |
| `Files.Basename` | tonet/data_processor/state_manager.py:57-58 | `os.path.basename` is a suffix of the path with no '/' in it |
| `Files.BasenameIsLastComponent` | tonet/data_processor/state_manager.py:57-58 | the base name is the whole path or is preceded by a '/', so it is everything after the last '/' |
| `Files.BasenameOfJoin` | tonet/data_processor/state_manager.py:57-58 | the base name of Join(dir, name) is `name` |
| `Checkpoint.ArchiveName` | tonet/data_processor/state_manager.py:68 | "<prefix>_state.zip", or "state.zip" without a prefix |
| `Checkpoint.ArchivePath` | tonet/data_processor/state_manager.py:66-68 | __construct_result_file: the archive name joined to the weights directory |
| `Checkpoint.BackupPath` | tonet/data_processor/state_manager.py:46 | the archive path with ".old" appended |
| `Checkpoint.UnpackedPaths` | tonet/data_processor/state_manager.py:24-25 | the mapping unpack records: weights_file and state_file, as weights.pth and state.pth joined to the weights directory |
| `Checkpoint.Rotate` | tonet/data_processor/state_manager.py:45-49 | rename_file: remove the backup, then move an existing archive to the backup path |
| `Checkpoint.Pack` | tonet/data_processor/state_manager.py:51-61 | pack: rotate, create an empty archive, add the weights and then the state file under their base names, remove both; a missing source stops with what the archive holds |
| `Checkpoint.Unpack` | tonet/data_processor/state_manager.py:26-29 | unpack: FileNotFound for a missing archive, BadZipFile for one that is not a zip, else extractall into the weights directory |
| `Checkpoint.ClearFiles` | tonet/data_processor/state_manager.py:31-38 | clear_files: KeyError for the first path that is not recorded, after removing the weights file when only the state path is missing; otherwise both recorded paths removed and the mapping reset |
| `Checkpoint.Extract` | tonet/data_processor/state_manager.py:28-29 | `extractall` writes each member at Join(dir, member), replacing a file of that name, and leaves every other file alone |
| `Checkpoint.ArchivePathInjective` | tonet/data_processor/state_manager.py:66-68 | different prefixes, and no prefix, give different archive paths |
| `Checkpoint.NamesDistinct` | tonet/data_processor/state_manager.py:45-49 | a backup never has an archive's name, and neither the archive nor its backup is weights.pth or state.pth |
| `Checkpoint.PrevStartName` | tonet/data_processor/state_manager.py:17-18 | the auto-backup archive is `weights_dir/prev_start_state.zip` |
| `Checkpoint.RotateSpec` | tonet/data_processor/state_manager.py:45-49 | `rename_file` drops any backup, moves an existing archive to `.old`, and changes nothing else |
| `Checkpoint.PackRotation` | tonet/data_processor/state_manager.py:45-55 | whether pack succeeds or not, the backup exists exactly when an archive existed and holds its contents; only the archive, its backup and the two sources change |
| `Checkpoint.PackKeepsOthers` | tonet/data_processor/state_manager.py:55-61 | apart from the archive and the two sources, pack leaves every file as rename_file left it |
| `Checkpoint.PackSuccess` | tonet/data_processor/state_manager.py:51-61 | pack succeeds exactly when both sources exist; the archive then holds exactly their base names with their contents, and both sources are gone |
| `Checkpoint.PackFailure` | tonet/data_processor/state_manager.py:55-61 | a missing weights file leaves an empty archive and an existing state file untouched; a missing state file leaves an archive with only the weights, and the weights file untouched |
| `Checkpoint.UnpackSpec` | tonet/data_processor/state_manager.py:26-29 | unpack raises on a missing or non-zip archive and changes nothing; otherwise each member lands at Join(dir, member) and nothing else changes |
| `Checkpoint.PackUnpackRoundTrip` | tonet/data_processor/state_manager.py:23-61 | pack then unpack with the same prefix restores weights.pth and state.pth with their original contents, beside the archive |
| `Checkpoint.UnpackCanonical` | tonet/data_processor/state_manager.py:23-29 | an archive holding weights.pth and state.pth unpacks them to the canonical paths and stays in place |
| `Checkpoint.PackCanonical` | tonet/data_processor/state_manager.py:51-61 | packing existing canonical files succeeds under any prefix, with members weights.pth and state.pth |
| `Checkpoint.AutoBackup` | tonet/data_processor/state_manager.py:16-19 | when both canonical files exist, the auto-backup creates prev_start_state.zip holding both, and the raw files are gone |
| `Checkpoint.ClearFilesFresh` | tonet/data_processor/state_manager.py:31-38 | `clear_files` before any unpack raises KeyError and changes nothing |
| `Checkpoint.ClearFilesAfterUnpack` | tonet/data_processor/state_manager.py:31-38 | after an unpack, `clear_files` removes both recorded paths, resets the mapping, and leaves other files alone |
| `StateStore.StateManager.Init` | tonet/data_processor/state_manager.py:9-11 | the fields start with the given paths, an empty mapping and no prefix |
| `StateStore.StateManager.Create` | tonet/data_processor/state_manager.py:8-21 | when both files exist, the filesystem is what packing under "prev_start" leaves, and the result is an error exactly when that pack fails, carrying its error; otherwise the filesystem is unchanged; on success the new manager stores the caller's prefix and an empty mapping |
| `StateStore.StateManager.RemoveFile` | tonet/data_processor/state_manager.py:41-43 | the path is absent afterwards and nothing else changes |
| `StateStore.StateManager.RenameFile` | tonet/data_processor/state_manager.py:45-49 | the new filesystem is `Checkpoint.Rotate` of the old one |
| `StateStore.StateManager.Pack` | tonet/data_processor/state_manager.py:40-61 | the new filesystem and the error are `Checkpoint.Pack` of the old filesystem, for the current archive path |
| `StateStore.StateManager.Unpack` | tonet/data_processor/state_manager.py:23-29 | the two expected paths are recorded even on failure; the new filesystem and the error are `Checkpoint.Unpack` of the old |
| `StateStore.StateManager.ClearFiles` | tonet/data_processor/state_manager.py:31-38 | the new filesystem, mapping and error are `Checkpoint.ClearFiles` of the old |
| `StateStore.StateManager.GetFiles` | tonet/data_processor/state_manager.py:63-64 | returns the mapping: empty, or the two paths of the weights directory |

## Left out

- GaussNoise, SNPNoise, Blur, RandomContrast and any pixel interpolation: their processes are floating point, NumPy randomness or OpenCV calls. Normalize and ToPyTorch processes are torch calls. These classes are modelled only for construction, configuration and gate.
- RandomRotate's process: it rotates with OpenCV and crops by a tangent-based float offset. Its construction and configuration are modelled. When its drawn angle is 0 it returns the input unchanged; the model does not state this.
- Resize's pixel output: the model gives only the target (width, height). OpenCV's rejection of zero or negative target sizes is not modelled.
- Random number generators: every `randint` draw is a parameter, and its `requires` is randint's range.
- Percentages that are not integers: the model takes the percentage as an integer. A gated class whose configured percentage is not an integer is rejected at construction (`NotAnInteger`). The source would compare a float at call time and raise TypeError only for other types.
- Floats and strings in the configuration are carried through unchanged as `Other`. A crop, resize or brightness parameter that is not an integer raises TypeError in the model. Floats in those places are not modelled any further.
- NumPy's 8-bit types: brightness is computed on unbounded integers. A non-negative offset never wraps, because `np.where` keeps 255 wherever the sum would pass 255. A negative offset can yield values below 0, which the model keeps as they are.
- The pipeline that chains augmentations in configuration order: it is not part of the modelled files.
- FileStructManager: its weights directory and two file paths are taken as given strings.
- Filesystem details: directories, permissions, I/O errors other than a missing file, and OS rename semantics beyond moving a map entry. The check "exists and is a regular file" is membership in the map.
- `os.path.join` with a second component that starts with '/': the source would drop the directory; the model does not.
- The zip byte format: an archive is its member map. A bytes file that is not a zip makes unpack raise BadZipFile. Member-name sanitisation in `extractall` is not modelled, and neither are duplicate entries. When the two base names coincide, the model keeps the later member, which is the one extraction would leave.
- Concurrency: the source has none, and the packer has no locking.

Three behaviours of the code that a caller may not expect:

- `pack` is not atomic. Opening the archive for writing creates it. A missing source raises while the archive is being written, and closing it leaves a valid partial archive.
- `clear_files` on a manager that never unpacked raises KeyError instead of doing nothing.
- `unpack` does not check which members the archive contains.
