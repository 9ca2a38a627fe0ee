/** The profiles of the older revision: fixed cache file names, a cache
    directory per name and version, and the check for the cached files. */
module LegacyProfiles {
  import opened Wrappers
  import opened Values

  const KernelFilename: string := "kernel"
  const InitrdFilename: string := "initrd"
  const DiskFilename: string := "disk.img"

  /** A profile class: its `name`, and its `version`, which the base class
      leaves `None` and no shown profile sets. */
  datatype LegacyProfile = LegacyProfile(name: string, version: Option<string>)

  /** The only profile of the older revision, `Ubuntu2004`. */
  const Ubuntu2004: LegacyProfile := LegacyProfile("ubuntu-20.04", None)

  /** `cache_directory`: `os.path.join(base_path, name, version)`; a `None`
      component makes `os.path.join` raise `TypeError`. */
  function CacheDirectory(base: string, p: LegacyProfile): (r: Result<string, PyError>)
    ensures r.Err? <==> p.version.None?
    ensures r.Err? ==> r.error == TypeError
    ensures r.Ok? ==> r.value == Join(Join(base, p.name), p.version.value)
  {
    match p.version
    case None => Err(TypeError)
    case Some(v) => Ok(Join(Join(base, p.name), v))
  }

  /** The loop of `check_required_files` from the file `names[0]` on: `False`
      at the first missing file, and falling off the end (`None`) when all
      exist. */
  function CheckFiles(dir: string, names: seq<string>, existing: set<string>): (r: Option<bool>)
    ensures r != Some(true)
    ensures r == Some(false) <==> exists i | 0 <= i < |names| :: Join(dir, names[i]) !in existing
    ensures r == None <==> forall i | 0 <= i < |names| :: Join(dir, names[i]) in existing
    decreases |names|
  {
    if names == [] then None
    else if Join(dir, names[0]) !in existing then Some(false)
    else
      var r := CheckFiles(dir, names[1..], existing);
      assert forall i | 0 < i < |names| :: names[i] == names[1..][i - 1];
      r
  }

  /** `check_required_files`: kernel, initrd and disk, in that order. It never
      returns `True`: `False` when a file is missing, `None` when all exist. */
  function CheckRequiredFiles(base: string, p: LegacyProfile, existing: set<string>): (r: Result<Option<bool>, PyError>)
    ensures r.Err? <==> p.version.None?
    ensures r != Ok(Some(true))
    ensures r.Ok? ==>
      var dir := CacheDirectory(base, p).value;
      && (r.value == Some(false) <==>
            Join(dir, KernelFilename) !in existing || Join(dir, InitrdFilename) !in existing || Join(dir, DiskFilename) !in existing)
      && (r.value == None <==>
            Join(dir, KernelFilename) in existing && Join(dir, InitrdFilename) in existing && Join(dir, DiskFilename) in existing)
  {
    var dir :- CacheDirectory(base, p);
    var names := [KernelFilename, InitrdFilename, DiskFilename];
    var r := CheckFiles(dir, names, existing);
    assert names[0] == KernelFilename && names[1] == InitrdFilename && names[2] == DiskFilename;
    Ok(r)
  }

  /** The shown profile has no version, so its cache directory, and with it
      the file check, always raises `TypeError`. */
  lemma Ubuntu2004HasNoCache(base: string, existing: set<string>)
    ensures CacheDirectory(base, Ubuntu2004) == Err(TypeError)
    ensures CheckRequiredFiles(base, Ubuntu2004, existing) == Err(TypeError)
  {
  }
}
