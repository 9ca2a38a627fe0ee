/** The distribution profiles of the newer revision: their names, the cache
    of downloaded base files, how each finds its kernel and initrd on the VM's
    boot volume, and how each renders its cloud-init data. */
module Profiles {
  import opened Wrappers
  import opened Strings
  import opened Values
  import opened CloudInit

  /** `PLATFORM`: the images for amd64 on an `x86_64` machine, arm64 on any other. */
  function PlatformFor(machine: string): (p: string)
    ensures p == "amd64" <==> machine == "x86_64"
    ensures p == "arm64" <==> machine != "x86_64"
  {
    if machine == "x86_64" then "amd64" else "arm64"
  }

  /** The concrete profile classes. `Ubuntu2104` and `Ubuntu2110` subclass
      `Ubuntu2004`; `Alpine315` subclasses the base profile directly. */
  datatype Profile = Ubuntu2004 | Ubuntu2104 | Ubuntu2110 | Alpine315

  predicate IsUbuntu(p: Profile) {
    !p.Alpine315?
  }

  /** The class attribute `name`: the key the registry stores the profile under. */
  function Name(p: Profile): string {
    match p
    case Ubuntu2004 => "ubuntu-20.04"
    case Ubuntu2104 => "ubuntu-21.04"
    case Ubuntu2110 => "ubuntu-21.10"
    case Alpine315 => "alpine-3.15"
  }

  /** Different profiles have different names, so a name identifies its profile. */
  lemma NameInjective(p: Profile, q: Profile)
    ensures Name(p) == Name(q) <==> p == q
  {
  }

  /** `profile_directory`: the cache base path joined with the profile's name. */
  function ProfileDirectory(base: string, p: Profile): (r: string)
    ensures r == base + Name(p) || r == base + "/" + Name(p)
  {
    assert Name(p)[0] != '/';
    Join(base, Name(p))
  }

  /** The cache file names `KERNAL_FILENAME`, `INITRD_FILENAME` and
      `DISK_FILENAME`, defined in a constants module outside this model. */
  datatype CacheNames = CacheNames(kernel: string, initrd: string, disk: string)

  /** The three cached files of a profile, in the order kernel, initrd, disk. */
  function CachePaths(base: string, names: CacheNames, p: Profile): seq<string> {
    var dir := ProfileDirectory(base, p);
    [Join(dir, names.kernel), Join(dir, names.initrd), Join(dir, names.disk)]
  }

  /** `process_downloaded_files`: the Ubuntu profiles unpack the archive
      (its content is not modelled); the Alpine profile calls `gzip.open`
      without importing `gzip`, which raises `NameError`. */
  function ProcessDownloaded(p: Profile): (r: Result<(), PyError>)
    ensures r.Err? <==> p.Alpine315?
    ensures r.Err? ==> r.error == NameError
  {
    if p.Alpine315? then Err(NameError) else Ok(())
  }

  /** `get_boot_files_from_filesystem`, from the names at the root of the boot
      volume. An Ubuntu profile takes the greatest name containing `vmlinuz`
      and the greatest containing `initrd` (`sorted(...)[-1]`), raising
      `IndexError` when either is missing; Alpine always names
      `vmlinuz-virt` and `initramfs-virt`. */
  function BootFiles(p: Profile, listing: seq<string>): (r: Result<(string, string), PyError>)
    ensures p.Alpine315? ==> r == Ok(("vmlinuz-virt", "initramfs-virt"))
    ensures IsUbuntu(p) ==>
      (r.Ok? <==> (exists x | x in listing :: Contains(x, "vmlinuz")) && (exists x | x in listing :: Contains(x, "initrd")))
    ensures r.Err? ==> r.error == IndexError
    ensures IsUbuntu(p) && r.Ok? ==>
      && r.value.0 in listing && Contains(r.value.0, "vmlinuz")
      && (forall x | x in listing && Contains(x, "vmlinuz") :: LexLe(x, r.value.0))
      && r.value.1 in listing && Contains(r.value.1, "initrd")
      && (forall x | x in listing && Contains(x, "initrd") :: LexLe(x, r.value.1))
  {
    if p.Alpine315? then Ok(("vmlinuz-virt", "initramfs-virt"))
    else
      var kernels := FilterContaining(listing, "vmlinuz");
      var initrds := FilterContaining(listing, "initrd");
      if |kernels| == 0 then
        assert forall x | x in listing :: !Contains(x, "vmlinuz");
        Err(IndexError)
      else if |initrds| == 0 then
        assert forall x | x in listing :: !Contains(x, "initrd");
        Err(IndexError)
      else
        SortedEndsAreExtremes(kernels);
        SortedEndsAreExtremes(initrds);
        Ok((Sort(kernels)[|kernels| - 1], Sort(initrds)[|initrds| - 1]))
  }

  /** `render_cloudinit_data` on the profile's loaded template, with the
      contents of the boot installer and of the guest agent script that the
      Alpine profile embeds. */
  function Render(p: Profile, template: Json, username: string, key: string,
                  installBoot: string, service: string): Result<Json, PyError>
  {
    if p.Alpine315? then
      var t :- SetUser(template, username, key);
      AppendServiceFiles(t, installBoot, service)
    else SetUser(template, username, key)
  }

  /** The Ubuntu subclasses inherit boot-file selection and rendering: on the
      same inputs every Ubuntu profile behaves as `Ubuntu2004`. */
  lemma UbuntuProfilesAgree(p: Profile, listing: seq<string>, template: Json, username: string,
                            key: string, installBoot: string, service: string)
    requires IsUbuntu(p)
    ensures BootFiles(p, listing) == BootFiles(Ubuntu2004, listing)
    ensures Render(p, template, username, key, installBoot, service) ==
            Render(Ubuntu2004, template, username, key, installBoot, service)
  {
  }

  /** On the same template, Alpine renders what Ubuntu renders with the two
      service files appended to `write_files`, and fails where Ubuntu fails or
      where `write_files` is not a list. */
  lemma AlpineRenderExtendsUbuntu(template: Json, username: string, key: string,
                                  installBoot: string, service: string)
    ensures var u := Render(Ubuntu2004, template, username, key, installBoot, service);
      var a := Render(Alpine315, template, username, key, installBoot, service);
      && (a.Ok? ==> u.Ok?)
      && (u.Ok? ==> a == AppendServiceFiles(u.value, installBoot, service))
      && (u.Err? ==> a == u)
  {
  }

  /** The cache of base files of the newer revision. `dirs` are the
      directories created, `files` the files that exist, `downloads` the
      target paths handed to the downloader, in order. */
  class ProfileCache {
    const basePath: string
    const names: CacheNames
    var dirs: set<string>
    var files: set<string>
    var downloads: seq<string>

    constructor(basePath: string, names: CacheNames, files: set<string>)
      ensures this.basePath == basePath && this.names == names
      ensures this.files == files && dirs == {} && downloads == []
    {
      this.basePath := basePath;
      this.names := names;
      this.files := files;
      dirs := {};
      downloads := [];
    }

    /** The kernel, initrd and disk of `p` are all in the cache. */
    predicate AllPresent(p: Profile)
      reads this`files
    {
      var paths := CachePaths(basePath, names, p);
      paths[0] in files && paths[1] in files && paths[2] in files
    }

    /** `required_files_exist`: create the profile's directory, then look for
      the kernel, initrd and disk in that order, stopping at the first missing. */
    method RequiredFilesExist(p: Profile) returns (b: bool)
      modifies this`dirs
      ensures dirs == old(dirs) + {ProfileDirectory(basePath, p)}
      ensures b <==> AllPresent(p)
    {
      dirs := dirs + {ProfileDirectory(basePath, p)};
      var paths := CachePaths(basePath, names, p);
      assert |paths| == 3;
      for i := 0 to 3
        invariant dirs == old(dirs) + {ProfileDirectory(basePath, p)}
        invariant forall j | 0 <= j < i :: paths[j] in files
      {
        if paths[i] !in files {
          return false;
        }
      }
      return true;
    }

    /** `download_required_files`: when the check fails, download the kernel,
      initrd and disk to their cache paths in that order, then post-process. */
    method DownloadRequiredFiles(p: Profile) returns (r: Result<(), PyError>)
      modifies this`dirs, this`files, this`downloads
      ensures dirs == old(dirs) + {ProfileDirectory(basePath, p)}
      ensures old(AllPresent(p)) ==> r == Ok(()) && files == old(files) && downloads == old(downloads)
      ensures !old(AllPresent(p)) ==>
        && downloads == old(downloads) + CachePaths(basePath, names, p)
        && files == old(files) + (set path | path in CachePaths(basePath, names, p))
        && r == ProcessDownloaded(p)
    {
      var present := RequiredFilesExist(p);
      if present {
        return Ok(());
      }
      var paths := CachePaths(basePath, names, p);
      downloads := downloads + paths;
      files := files + set path | path in paths;
      r := ProcessDownloaded(p);
    }

    /** `file_locations`: download when the check fails, then return the
      kernel, initrd and disk paths, unless post-processing raised. */
    method FileLocations(p: Profile) returns (r: Result<seq<string>, PyError>)
      modifies this`dirs, this`files, this`downloads
      ensures dirs == old(dirs) + {ProfileDirectory(basePath, p)}
      ensures r.Ok? ==> r.value == CachePaths(basePath, names, p) && AllPresent(p)
      ensures r.Err? <==> !old(AllPresent(p)) && ProcessDownloaded(p).Err?
      ensures r.Err? ==> r.error == ProcessDownloaded(p).error
      ensures old(AllPresent(p)) ==> files == old(files) && downloads == old(downloads)
      ensures !old(AllPresent(p)) ==> downloads == old(downloads) + CachePaths(basePath, names, p)
    {
      var present := RequiredFilesExist(p);
      if !present {
        var d := DownloadRequiredFiles(p);
        if d.Err? {
          return Err(d.error);
        }
      }
      return Ok(CachePaths(basePath, names, p));
    }
  }
}
