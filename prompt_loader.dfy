/**
 * `prompt_loader.py`: a prompt profile is a directory `<root>/<profile>` holding
 * `<profile>.system.md`, an optional `<profile>.user.md` and any number of `<profile>.<name>.md` extras.
 * The filesystem is a map from (root, profile) to the listing of that directory, in the order the
 * directory yields it; a file whose `content` is `None` cannot be read.
 */
module PromptLoader {
  import opened Wrappers
  import opened Text
  import opened Dicts

  datatype PromptBundle = PromptBundle(profile: string, system: string, user: Option<string>,
                                       extras: Dict<string, string>)

  datatype FileEntry = FileEntry(name: string, content: Option<string>)

  type Disk = map<(string, string), seq<FileEntry>>

  /** `FileNotFoundError(msg)` or `OSError(msg)`. */
  datatype LoadError = FileNotFound(msg: string) | ReadFailed(msg: string)

  function DirPath(root: string, profile: string): string {
    root + "/" + profile
  }

  function SystemName(profile: string): string { profile + ".system.md" }
  function UserName(profile: string): string { profile + ".user.md" }

  /** The first entry of the listing called `name`. */
  function Find(files: seq<FileEntry>, name: string): (r: Option<FileEntry>)
    ensures r.Some? ==> r.value in files && r.value.name == name
    ensures r.None? <==> forall j :: 0 <= j < |files| ==> files[j].name != name
  {
    if files == [] then None
    else if files[0].name == name then Some(files[0])
    else Find(files[1..], name)
  }

  /** `_read_text`: the content, or the `OSError` naming the path. */
  function ReadText(dir: string, f: FileEntry): (r: Result<string, LoadError>)
    ensures r.Ok? <==> f.content.Some?
  {
    match f.content
    case Some(text) => Ok(text)
    case None => Err(ReadFailed("Failed reading prompt file: " + dir + "/" + f.name))
  }

  /** Whether `name` matches the glob `<profile>.*.md`. */
  predicate MatchesGlob(profile: string, name: string) {
    |name| >= |profile| + 4 && StartsWith(name, profile + ".") && EndsWith(name, ".md")
  }

  /** The extras key a listed file contributes: the stem (name without `.md`) after `<profile>.`,
      unless the file is the system or user file or that part of the stem is empty. */
  function ExtraKey(profile: string, name: string): Option<string> {
    if !MatchesGlob(profile, name) || name == SystemName(profile) || name == UserName(profile) then None
    else
      var stem := name[..|name| - 3];
      var suffixStart := |profile| + 1;
      if !StartsWith(stem, profile + ".") || suffixStart >= |stem| then None
      else
        var suffix := stem[suffixStart..];
        if suffix == "system" || suffix == "user" then None else Some(suffix)
  }

  /** A file is an extra called `k` exactly when it is named `<profile>.<k>.md` for a `k` that is
      neither empty nor `system` nor `user`. */
  lemma ExtraKeyIff(profile: string, name: string, k: string)
    ensures ExtraKey(profile, name) == Some(k) <==>
              name == profile + "." + k + ".md" && k != "" && k != "system" && k != "user"
  {
    if name == profile + "." + k + ".md" && k != "" && k != "system" && k != "user" {
      ExtraKeyOfName(profile, k);
    }
    if ExtraKey(profile, name) == Some(k) {
      NameOfExtraKey(profile, name, k);
    }
  }

  /** The file `<profile>.<k>.md` is the extra `k`, for a `k` that is neither empty nor `system` nor `user`. */
  lemma ExtraKeyOfName(profile: string, k: string)
    requires k != "" && k != "system" && k != "user"
    ensures ExtraKey(profile, profile + "." + k + ".md") == Some(k)
  {
    var name := profile + "." + k + ".md";
    var stem := name[..|name| - 3];
    assert stem == profile + "." + k;
    assert stem[|profile| + 1..] == k;
    assert name[..|profile| + 1] == profile + ".";
    assert name[|name| - 3..] == ".md";
    assert name != SystemName(profile) && name != UserName(profile) by {
      assert name[|profile| + 1..|name| - 3] == k;
      assert SystemName(profile)[|profile| + 1..|SystemName(profile)| - 3] == "system";
      assert UserName(profile)[|profile| + 1..|UserName(profile)| - 3] == "user";
    }
  }

  /** The extra `k` comes from the file `<profile>.<k>.md`, and `k` is neither empty nor `system` nor `user`. */
  lemma NameOfExtraKey(profile: string, name: string, k: string)
    requires ExtraKey(profile, name) == Some(k)
    ensures name == profile + "." + k + ".md" && k != "" && k != "system" && k != "user"
  {
    var stem := name[..|name| - 3];
    assert stem[|profile| + 1..] == k;
    assert stem == stem[..|profile| + 1] + stem[|profile| + 1..];
    assert name == stem + name[|name| - 3..];
  }

  /** The extras read from the first `n` listed files, or the first read error among them. */
  function ExtrasOf(dir: string, profile: string, files: seq<FileEntry>, n: nat): Result<Dict<string, string>, LoadError>
    requires n <= |files|
  {
    if n == 0 then Ok([])
    else match ExtrasOf(dir, profile, files, n - 1)
      case Err(e) => Err(e)
      case Ok(extras) =>
        match ExtraKey(profile, files[n - 1].name)
        case None => Ok(extras)
        case Some(k) =>
          match ReadText(dir, files[n - 1])
          case Err(e) => Err(e)
          case Ok(text) => Ok(Put(extras, k, text))
  }

  /** `_load_prompt_bundle_from_disk`, including every error it raises. */
  function BundleFromDisk(disk: Disk, root: string, profile: string): Result<PromptBundle, LoadError> {
    var dir := DirPath(root, profile);
    if (root, profile) !in disk then
      Err(FileNotFound("Prompt profile directory not found for '" + profile + "': " + dir))
    else
      var files := disk[(root, profile)];
      match Find(files, SystemName(profile))
      case None => Err(FileNotFound("Missing system prompt file for profile '" + profile + "': " + dir + "/" + SystemName(profile)))
      case Some(systemFile) =>
        match ReadText(dir, systemFile)
        case Err(e) => Err(e)
        case Ok(system) =>
          var user := match Find(files, UserName(profile))
            case None => Ok(None)
            case Some(userFile) => (match ReadText(dir, userFile) case Ok(t) => Ok(Some(t)) case Err(e) => Err(e));
          match user
          case Err(e) => Err(e)
          case Ok(u) =>
            match ExtrasOf(dir, profile, files, |files|)
            case Err(e) => Err(e)
            case Ok(extras) => Ok(PromptBundle(profile, system, u, extras))
  }

  /** `_load_prompt_bundle_from_disk` */
  method LoadFromDisk(disk: Disk, root: string, profile: string) returns (r: Result<PromptBundle, LoadError>)
    ensures r == BundleFromDisk(disk, root, profile)
  {
    var dir := DirPath(root, profile);
    if (root, profile) !in disk {
      return Err(FileNotFound("Prompt profile directory not found for '" + profile + "': " + dir));
    }
    var files := disk[(root, profile)];
    var systemFile := Find(files, SystemName(profile));
    if systemFile.None? {
      return Err(FileNotFound("Missing system prompt file for profile '" + profile + "': " + dir + "/" + SystemName(profile)));
    }
    var system := ReadText(dir, systemFile.value);
    if system.Err? {
      return Err(system.error);
    }
    var userFile := Find(files, UserName(profile));
    var user: Option<string> := None;
    if userFile.Some? {
      var text := ReadText(dir, userFile.value);
      if text.Err? {
        return Err(text.error);
      }
      user := Some(text.value);
    }
    var extras := ReadExtras(dir, profile, files);
    if extras.Err? {
      return Err(extras.error);
    }
    r := Ok(PromptBundle(profile, system.value, user, extras.value));
  }

  /** The extras loop of `_load_prompt_bundle_from_disk`, over the directory listing in order. */
  method ReadExtras(dir: string, profile: string, files: seq<FileEntry>) returns (r: Result<Dict<string, string>, LoadError>)
    ensures r == ExtrasOf(dir, profile, files, |files|)
  {
    r := Ok([]);
    var i := 0;
    while i < |files| && r.Ok?
      invariant 0 <= i <= |files|
      invariant r == ExtrasOf(dir, profile, files, i)
    {
      r := ReadExtra(dir, profile, files, i, r.value);
      i := i + 1;
    }
    if i < |files| {
      ExtrasErrorPersists(dir, profile, files, i, |files|);
    }
  }

  /** One step of the extras loop: the file at `i` adds its extra, is skipped, or fails to be read. */
  method ReadExtra(dir: string, profile: string, files: seq<FileEntry>, i: nat, extras: Dict<string, string>)
    returns (r: Result<Dict<string, string>, LoadError>)
    requires i < |files| && ExtrasOf(dir, profile, files, i) == Ok(extras)
    ensures r == ExtrasOf(dir, profile, files, i + 1)
  {
    var key := ExtraKey(profile, files[i].name);
    if key.None? {
      return Ok(extras);
    }
    var text := ReadText(dir, files[i]);
    if text.Err? {
      return Err(text.error);
    }
    r := Ok(Put(extras, key.value, text.value));
  }

  /** Once a read fails, the whole extras scan fails with that error. */
  lemma {:induction false} ExtrasErrorPersists(dir: string, profile: string, files: seq<FileEntry>, i: nat, n: nat)
    requires i <= n <= |files|
    requires ExtrasOf(dir, profile, files, i).Err?
    ensures ExtrasOf(dir, profile, files, n) == ExtrasOf(dir, profile, files, i)
    decreases n - i
  {
    if n > i {
      ExtrasErrorPersists(dir, profile, files, i, n - 1);
    }
  }

  /** The extras keys are exactly the listed `<profile>.<k>.md` files (when all of them could be read). */
  lemma {:induction false} ExtrasKeys(dir: string, profile: string, files: seq<FileEntry>, n: nat, k: string)
    requires n <= |files|
    requires ExtrasOf(dir, profile, files, n).Ok?
    ensures k in Keys(ExtrasOf(dir, profile, files, n).value) <==>
              exists j :: 0 <= j < n && ExtraKey(profile, files[j].name) == Some(k)
  {
    if n > 0 {
      ExtrasKeys(dir, profile, files, n - 1, k);
      var prev := ExtrasOf(dir, profile, files, n - 1);
      assert prev.Ok?;
      if (exists j :: 0 <= j < n && ExtraKey(profile, files[j].name) == Some(k)) {
        var j :| 0 <= j < n && ExtraKey(profile, files[j].name) == Some(k);
        if j < n - 1 {
          assert k in Keys(prev.value);
        }
      }
    }
  }

  /** Each extra holds the text of a file with its name. */
  lemma {:induction false} ExtrasValues(dir: string, profile: string, files: seq<FileEntry>, n: nat, k: string)
    requires n <= |files|
    requires ExtrasOf(dir, profile, files, n).Ok?
    requires k in Keys(ExtrasOf(dir, profile, files, n).value)
    ensures exists j :: 0 <= j < n && files[j].name == profile + "." + k + ".md" &&
                        files[j].content == Get(ExtrasOf(dir, profile, files, n).value, k)
  {
    var prev := ExtrasOf(dir, profile, files, n - 1);
    assert prev.Ok?;
    var key := ExtraKey(profile, files[n - 1].name);
    if key == Some(k) {
      ExtraKeyIff(profile, files[n - 1].name, k);
      assert files[n - 1].name == profile + "." + k + ".md";
    } else {
      ExtrasValues(dir, profile, files, n - 1, k);
      var j :| 0 <= j < n - 1 && files[j].name == profile + "." + k + ".md" && files[j].content == Get(prev.value, k);
      assert files[j].content == Get(ExtrasOf(dir, profile, files, n).value, k);
    }
  }

  /** A missing directory or system file raises `FileNotFoundError`; a missing user file gives `user == None`. */
  lemma DiskOutcomes(disk: Disk, root: string, profile: string)
    ensures (root, profile) !in disk ==>
              (BundleFromDisk(disk, root, profile).Err? && BundleFromDisk(disk, root, profile).error.FileNotFound?)
    ensures (root, profile) in disk && Find(disk[(root, profile)], SystemName(profile)).None? ==>
              (BundleFromDisk(disk, root, profile).Err? && BundleFromDisk(disk, root, profile).error.FileNotFound?)
    ensures BundleFromDisk(disk, root, profile).Ok? ==>
              && BundleFromDisk(disk, root, profile).value.profile == profile
              && (BundleFromDisk(disk, root, profile).value.user.None? <==>
                    Find(disk[(root, profile)], UserName(profile)).None?)
              && Some(BundleFromDisk(disk, root, profile).value.system) ==
                    Find(disk[(root, profile)], SystemName(profile)).value.content
  {
  }

  /** `load_prompt_bundle`'s override: a truthy `system_prompt` replaces `system` and nothing else. */
  function ApplyOverride(b: PromptBundle, systemPrompt: Option<string>): (r: PromptBundle)
    ensures r.profile == b.profile && r.user == b.user && r.extras == b.extras
    ensures r.system == if systemPrompt.Some? && systemPrompt.value != "" then systemPrompt.value else b.system
  {
    if systemPrompt.Some? && systemPrompt.value != "" then b.(system := systemPrompt.value) else b
  }

  type Cache = map<(string, string), PromptBundle>

  /** `load_prompt_bundle` on a cache: the result and the cache afterwards. Only successful loads are
      cached (a raising call stores nothing), and `refresh` clears the whole cache first. */
  function LoadBundle(cache: Cache, disk: Disk, root: string, profile: string, systemPrompt: Option<string>,
                      refresh: bool): (Result<PromptBundle, LoadError>, Cache)
  {
    var c := if refresh then map[] else cache;
    if (root, profile) in c then (Ok(ApplyOverride(c[(root, profile)], systemPrompt)), c)
    else match BundleFromDisk(disk, root, profile)
      case Err(e) => (Err(e), c)
      case Ok(b) => (Ok(ApplyOverride(b, systemPrompt)), c[(root, profile) := b])
  }

  /** A repeat load returns the cached bundle, whatever the disk now holds; the override never
      reaches the cache. */
  lemma {:induction false} RepeatLoadIsCached(cache: Cache, disk: Disk, disk2: Disk, root: string, profile: string,
                                              o1: Option<string>, o2: Option<string>)
    requires LoadBundle(cache, disk, root, profile, o1, false).0.Ok?
    ensures var (r1, c1) := LoadBundle(cache, disk, root, profile, o1, false);
      && (root, profile) in c1
      && r1.value == ApplyOverride(c1[(root, profile)], o1)
      && c1[(root, profile)] == (if (root, profile) in cache then cache[(root, profile)]
                                 else BundleFromDisk(disk, root, profile).value)
      && LoadBundle(c1, disk2, root, profile, o2, false) == (Ok(ApplyOverride(c1[(root, profile)], o2)), c1)
  {
  }

  /** After `refresh`, the bundle comes from the disk as it is now. */
  lemma RefreshReloads(cache: Cache, disk: Disk, root: string, profile: string, o: Option<string>)
    ensures var (r, c) := LoadBundle(cache, disk, root, profile, o, true);
      && (BundleFromDisk(disk, root, profile).Ok? ==>
            r == Ok(ApplyOverride(BundleFromDisk(disk, root, profile).value, o))
            && c == map[(root, profile) := BundleFromDisk(disk, root, profile).value])
      && (BundleFromDisk(disk, root, profile).Err? ==> r == BundleFromDisk(disk, root, profile) && c == map[])
  {
  }

  /** The `lru_cache` behind `load_prompt_bundle`. */
  class PromptCache {
    var entries: Cache

    constructor ()
      ensures entries == map[]
    {
      entries := map[];
    }

    /** `load_prompt_bundle(settings, refresh=...)`, with the settings' root, profile and override. */
    method LoadPromptBundle(disk: Disk, root: string, profile: string, systemPrompt: Option<string>, refresh: bool)
      returns (r: Result<PromptBundle, LoadError>)
      modifies this
      ensures (r, entries) == LoadBundle(old(entries), disk, root, profile, systemPrompt, refresh)
    {
      if refresh {
        entries := map[];
      }
      var bundle: PromptBundle;
      if (root, profile) in entries {
        bundle := entries[(root, profile)];
      } else {
        var loaded := LoadFromDisk(disk, root, profile);
        if loaded.Err? {
          return Err(loaded.error);
        }
        bundle := loaded.value;
        entries := entries[(root, profile) := bundle];
      }
      r := Ok(ApplyOverride(bundle, systemPrompt));
    }

    /** `load_system_prompt`: the `system` field of `load_prompt_bundle`. */
    method LoadSystemPrompt(disk: Disk, root: string, profile: string, systemPrompt: Option<string>, refresh: bool)
      returns (r: Result<string, LoadError>)
      modifies this
      ensures var (b, c) := LoadBundle(old(entries), disk, root, profile, systemPrompt, refresh);
        entries == c && r == (if b.Ok? then Ok(b.value.system) else Err(b.error))
    {
      var b := LoadPromptBundle(disk, root, profile, systemPrompt, refresh);
      r := if b.Ok? then Ok(b.value.system) else Err(b.error);
    }

    /** `load_user_primer`: the `user` field of `load_prompt_bundle`. */
    method LoadUserPrimer(disk: Disk, root: string, profile: string, systemPrompt: Option<string>, refresh: bool)
      returns (r: Result<Option<string>, LoadError>)
      modifies this
      ensures var (b, c) := LoadBundle(old(entries), disk, root, profile, systemPrompt, refresh);
        entries == c && r == (if b.Ok? then Ok(b.value.user) else Err(b.error))
    {
      var b := LoadPromptBundle(disk, root, profile, systemPrompt, refresh);
      r := if b.Ok? then Ok(b.value.user) else Err(b.error);
    }
  }
}
