/** The file system the driver reads, splits and moves files in: a map from path to
    content plus the set of directories it has made, and `move_file`. */
module Disk {
  import opened Common
  import opened Strings

  /** Which stretch of a recording a sound file holds. */
  datatype Part = Whole | Before(boundary: int) | After(boundary: int)

  datatype Content =
    | Audio(source: string, part: Part) // a sound file cut from the recording at `source`
    | Table(rows: seq<Row>)            // a companion table with one timestamp per row
    | Blob                             // any other file, such as an XML log

  datatype FileSystem = FileSystem(files: map<string, Content>, dirs: set<string>)

  predicate Exists(fs: FileSystem, p: string)
  {
    p in fs.files || p in fs.dirs
  }

  /** `os.path.join(a, b)` for two components, as POSIX defines it. */
  function OsPathJoin(a: string, b: string): (r: string)
    ensures EndsWith(r, b)
    ensures StartsWith(b, "/") ==> r == b
    ensures !StartsWith(b, "/") ==> StartsWith(r, a) && |r| <= |a| + 1 + |b|
  {
    if StartsWith(b, "/") then b
    else if a == [] || EndsWith(a, "/") then a + b
    else a + "/" + b
  }

  /** `Path(folder).joinpath(Path(file).name)`: where `move_file` puts `file`. */
  function Destination(file: string, folder: string): (dest: string)
    ensures StartsWith(dest, folder + "/")
    ensures Basename(dest) == Basename(file)
    ensures '/' !in dest[|folder| + 1..]
  {
    var name := Basename(file);
    BasenameIsLastPart(file);
    var dest := folder + "/" + name;
    assert dest[|dest| - |name|..] == name;
    assert dest[|dest| - |name| - 1] == '/';
    BasenameOfSuffix(dest, name);
    assert dest[..|folder + "/"|] == folder + "/";
    assert dest[|folder| + 1..] == name;
    dest
  }

  /** `move_file(file, folder)`: create `folder` when nothing exists at that path, then
      `os.rename` the file into it under its own name, replacing what was there. The
      rename raises when the file is missing, when `folder` is a plain file, or when a
      directory already stands at the destination. */
  function MoveFile(fs: FileSystem, file: string, folder: string): (r: Result<FileSystem, Failure>)
    ensures r.Ok? <==> file in fs.files && folder !in fs.files && Destination(file, folder) !in fs.dirs
    ensures r.Err? ==> r.error == MoveFailed(file)
    ensures r.Ok? ==> r.value.dirs == fs.dirs + {folder}
    ensures r.Ok? ==> Destination(file, folder) in r.value.files
                      && r.value.files[Destination(file, folder)] == fs.files[file]
    ensures r.Ok? && file != Destination(file, folder) ==> file !in r.value.files
    ensures r.Ok? ==> forall p :: p != file && p != Destination(file, folder) ==>
                        (p in r.value.files <==> p in fs.files)
                        && (p in fs.files ==> r.value.files[p] == fs.files[p])
  {
    var dirs := if Exists(fs, folder) then fs.dirs else fs.dirs + {folder};
    var dest := Destination(file, folder);
    if file !in fs.files || folder in fs.files || dest in dirs then Err(MoveFailed(file))
    else Ok(FileSystem((fs.files - {file})[dest := fs.files[file]], dirs))
  }
}
