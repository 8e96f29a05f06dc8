/**
 * The `local:` source: `readdir` walks a directory tree (here a value, not the
 * file system) and lists the files whose lower-cased name carries one of the
 * image extensions, each as a URL under the module's mount point for the cache
 * key and captioned with its resolved path. Sub-directories are entered only
 * when `recurseLocalDirectories` is set. A directory whose `readdir` rejects
 * makes the whole walk reject.
 */
module LocalFiles {
  import opened Js
  import opened Records

  /** An entry of `fs.promises.readdir(dir, { withFileTypes: true })`. */
  datatype Dirent =
    | File(name: string)
    | Directory(name: string, entries: seq<Dirent>)
    | Unreadable(name: string) // a directory whose `readdir` rejects (missing, no permission, …)
    | Other(name: string)      // neither a file nor a directory (a socket, a device, …)

  /** The extensions `/\.(?:a?png|avif|gif|p?jpe?g|jfif|pjp|svg|webp|bmp)$/` accepts. */
  const Extensions: seq<string> :=
    ["png", "apng", "avif", "gif", "jpg", "jpeg", "pjpg", "pjpeg", "jfif", "pjp", "svg", "webp", "bmp"]

  /** The lower-cased name ends with a dot and an allowed extension. */
  predicate IsImageName(name: string) {
    exists i :: 0 <= i < |Extensions| && EndsWith(ToLower(name), "." + Extensions[i])
  }

  /** `path.resolve(dir, name)` for an absolute, normalised `dir` and a plain entry name. */
  function Resolve(dir: string, name: string): string { dir + "/" + name }

  /** `{url: urlPath + prefix.substring(1) + name, caption: entpath}`. */
  function FileImage(urlPath: string, prefix: string, dir: string, name: string): Image {
    Image(Some(urlPath + SubstringFrom(prefix, 1) + name), Some(Resolve(dir, name)), [])
  }

  /** `getFiles(dir, prefix)`: the images of the entries, in listing order, sub-directories expanded in place. */
  function Listing(dir: string, prefix: string, urlPath: string, entries: seq<Dirent>, recurse: bool): seq<Image>
    decreases entries
  {
    if entries == [] then []
    else EntryImages(dir, prefix, urlPath, entries[0], recurse) + Listing(dir, prefix, urlPath, entries[1..], recurse)
  }

  /** What one entry contributes: a directory's listing, an image file's record, or nothing. */
  function EntryImages(dir: string, prefix: string, urlPath: string, e: Dirent, recurse: bool): seq<Image>
    decreases e
  {
    match e
    case Directory(name, entries) =>
      if recurse then Listing(Resolve(dir, name), prefix + name + "/", urlPath, entries, recurse) else []
    case File(name) => if IsImageName(name) then [FileImage(urlPath, prefix, dir, name)] else []
    case Unreadable(_) => []
    case Other(_) => []
  }

  /** The walk enters a directory whose `readdir` rejects. */
  predicate ReachesUnreadable(entries: seq<Dirent>, recurse: bool)
    decreases entries
  {
    entries != [] && (EntryUnreadable(entries[0], recurse) || ReachesUnreadable(entries[1..], recurse))
  }

  /** Entering this entry, or a directory below it, rejects. */
  predicate EntryUnreadable(e: Dirent, recurse: bool)
    decreases e
  {
    match e
    case Unreadable(_) => recurse
    case Directory(_, entries) => recurse && ReachesUnreadable(entries, recurse)
    case _ => false
  }

  /**
   * The promise `getFiles(dir, prefix)` settles with: None when it rejects,
   * because the top directory (`tree` None) or an entered sub-directory cannot
   * be read; otherwise the listing.
   */
  function GetFiles(dir: string, prefix: string, urlPath: string, tree: Option<seq<Dirent>>, recurse: bool): Option<seq<Image>> {
    if tree.None? || ReachesUnreadable(tree.value, recurse) then None
    else Some(Listing(dir, prefix, urlPath, tree.value, recurse))
  }

  /** Without recursion no sub-directory is read, so the walk rejects exactly when the top directory cannot be read. */
  lemma {:induction false} FlatWalkFailsOnlyAtTop(dir: string, prefix: string, urlPath: string, tree: Option<seq<Dirent>>)
    ensures GetFiles(dir, prefix, urlPath, tree, false).None? <==> tree.None?
  {
    if tree.Some? {
      FlatNeverReachesUnreadable(tree.value);
    }
  }

  lemma {:induction false} FlatNeverReachesUnreadable(entries: seq<Dirent>)
    ensures !ReachesUnreadable(entries, false)
  {
    if entries != [] {
      FlatNeverReachesUnreadable(entries[1..]);
    }
  }

  /** With recursion, one unreadable sub-directory anywhere in the listing makes the whole walk reject. */
  lemma {:induction false} UnreadableSubdirectoryRejects(dir: string, prefix: string, urlPath: string, entries: seq<Dirent>, j: nat)
    requires j < |entries| && entries[j].Unreadable?
    ensures GetFiles(dir, prefix, urlPath, Some(entries), true).None?
  {
    ReachesAt(entries, j);
  }

  lemma {:induction false} ReachesAt(entries: seq<Dirent>, j: nat)
    requires j < |entries| && entries[j].Unreadable?
    ensures ReachesUnreadable(entries, true)
  {
    if j > 0 {
      assert entries[1..][j - 1] == entries[j];
      ReachesAt(entries[1..], j - 1);
    }
  }

  /**
   * The URL and the caption of an image name the same file: past the URL base and
   * the directory (with its slash) both read the same relative path, and that
   * path ends with an image extension.
   */
  predicate SharesPath(img: Image, urlBase: string, dirBase: string) {
    && img.url.Some? && img.caption.Some?
    && StartsWith(img.url.value, urlBase) && StartsWith(img.caption.value, dirBase)
    && img.url.value[|urlBase|..] == img.caption.value[|dirBase|..]
    && IsImageName(img.url.value[|urlBase|..])
  }

  /** An image extension at the end of a name is still at the end behind any directory path. */
  lemma ImageNameSuffix(a: string, b: string)
    requires IsImageName(b)
    ensures IsImageName(a + b)
  {
    var i :| 0 <= i < |Extensions| && EndsWith(ToLower(b), "." + Extensions[i]);
    LowerConcat(a, b);
    EndsWithBehind(ToLower(a), ToLower(b), "." + Extensions[i]);
  }

  lemma LowerConcat(a: string, b: string)
    ensures ToLower(a + b) == ToLower(a) + ToLower(b)
  {
  }

  lemma EndsWithBehind(a: string, b: string, suffix: string)
    requires EndsWith(b, suffix)
    ensures EndsWith(a + b, suffix)
  {
    assert (a + b)[|a + b| - |suffix|..] == b[|b| - |suffix|..];
  }

  /** A path shared under a deeper base is shared under the shallower one. */
  lemma SharesPathWidens(img: Image, urlBase: string, dirBase: string, mid: string)
    requires SharesPath(img, urlBase + mid, dirBase + mid)
    ensures SharesPath(img, urlBase, dirBase)
  {
    var url, caption := img.url.value, img.caption.value;
    var rest := url[|urlBase + mid|..];
    assert url == urlBase + mid + rest;
    assert caption == dirBase + mid + rest;
    assert url[|urlBase|..] == mid + rest;
    assert caption[|dirBase|..] == mid + rest;
    ImageNameSuffix(mid, rest);
  }

  /**
   * Every listed image, at any depth, is an image file whose URL below
   * `urlPath + prefix.substring(1)` and whose caption below `dir + "/"` are the
   * same relative path.
   */
  lemma {:induction false} ListingPaths(dir: string, prefix: string, urlPath: string, entries: seq<Dirent>, recurse: bool)
    requires prefix != []
    ensures forall img :: img in Listing(dir, prefix, urlPath, entries, recurse) ==>
      SharesPath(img, urlPath + prefix[1..], dir + "/")
    decreases entries
  {
    if entries != [] {
      EntryPaths(dir, prefix, urlPath, entries[0], recurse);
      ListingPaths(dir, prefix, urlPath, entries[1..], recurse);
    }
  }

  lemma {:induction false} EntryPaths(dir: string, prefix: string, urlPath: string, e: Dirent, recurse: bool)
    requires prefix != []
    ensures forall img :: img in EntryImages(dir, prefix, urlPath, e, recurse) ==>
      SharesPath(img, urlPath + prefix[1..], dir + "/")
    decreases e
  {
    match e
    case Directory(name, entries) =>
      if recurse {
        var sub, prefix' := Resolve(dir, name), prefix + name + "/";
        ListingPaths(sub, prefix', urlPath, entries, recurse);
        assert prefix'[1..] == prefix[1..] + (name + "/");
        assert sub + "/" == dir + "/" + (name + "/");
        forall img | img in Listing(sub, prefix', urlPath, entries, recurse)
          ensures SharesPath(img, urlPath + prefix[1..], dir + "/")
        {
          assert urlPath + prefix'[1..] == urlPath + prefix[1..] + (name + "/");
          SharesPathWidens(img, urlPath + prefix[1..], dir + "/", name + "/");
        }
      }
    case File(name) =>
      if IsImageName(name) {
        var img := FileImage(urlPath, prefix, dir, name);
        assert img.url.value == urlPath + prefix[1..] + name;
        assert img.caption.value == dir + "/" + name;
      }
    case Unreadable(_) =>
    case Other(_) =>
  }

  /**
   * Without recursion the listing holds exactly the records of the top-level
   * files with an image name.
   */
  lemma {:induction false} FlatListing(dir: string, prefix: string, urlPath: string, entries: seq<Dirent>)
    ensures forall img :: img in Listing(dir, prefix, urlPath, entries, false) <==>
      exists j :: 0 <= j < |entries| && entries[j].File? && IsImageName(entries[j].name) &&
        img == FileImage(urlPath, prefix, dir, entries[j].name)
  {
    if entries != [] {
      FlatListing(dir, prefix, urlPath, entries[1..]);
      forall img ensures img in Listing(dir, prefix, urlPath, entries, false) <==>
        exists j :: 0 <= j < |entries| && entries[j].File? && IsImageName(entries[j].name) &&
          img == FileImage(urlPath, prefix, dir, entries[j].name)
      {
        if exists j :: 0 <= j < |entries| && entries[j].File? && IsImageName(entries[j].name) &&
             img == FileImage(urlPath, prefix, dir, entries[j].name) {
          var j :| 0 <= j < |entries| && entries[j].File? && IsImageName(entries[j].name) &&
            img == FileImage(urlPath, prefix, dir, entries[j].name);
          if j > 0 {
            assert entries[1..][j - 1] == entries[j];
          }
        }
        if img in Listing(dir, prefix, urlPath, entries[1..], false) {
          var j :| 0 <= j < |entries[1..]| && entries[1..][j].File? && IsImageName(entries[1..][j].name) &&
            img == FileImage(urlPath, prefix, dir, entries[1..][j].name);
          assert entries[j + 1] == entries[1..][j];
        }
      }
    }
  }
}
