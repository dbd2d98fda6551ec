/** What a run touches outside itself: the destination file tree, the log
    widget, the progress bar, and download_image. */
module Env {
  import opened PyStr

  /** A path as its components; os.path.join appends one. A name is kept as
      one component even when it holds a '/', where Python would nest. */
  type Path = seq<string>

  function Join(dir: Path, name: string): Path {
    dir + [name]
  }

  /** Every non-empty leading part of p: what os.makedirs(p, exist_ok=True)
      leaves in place. */
  function Ancestry(p: Path): (r: set<Path>)
    ensures p != [] ==> p in r
    ensures forall k :: 1 <= k <= |p| ==> p[..k] in r
    ensures forall q :: q in r ==> q != [] && |q| <= |p| && q == p[..|q|]
  {
    assert p[..|p|] == p;
    set k | 1 <= k <= |p| :: p[..k]
  }

  /** p lies `depth` components below dir. */
  ghost predicate Under(dir: Path, depth: nat, p: Path) {
    |p| == |dir| + depth && p[..|dir|] == dir
  }

  /** What lies below a directory of dir lies one level deeper below dir. */
  lemma UnderJoin(dir: Path, name: string, depth: nat, p: Path)
    requires Under(Join(dir, name), depth, p)
    ensures Under(dir, depth + 1, p)
  {
    assert p[..|dir|] == p[..|dir| + 1][..|dir|];
  }

  /** The log lines, without their timestamps. */
  datatype Event =
    | ParseFailed(error: string)          // "Failed to parse YAML: {e}"
    | IdNotFound(key: string)             // "TMDb ID not found for TVDB ID {tvdb_id}"
    | NoTitleYear(key: string)            // "Could not get title/year for {tvdb_id}"
    | ShowPosterFetched(dest: Path)       // "Downloaded show poster: {dest}"
    | BackgroundFetched(dest: Path)       // "Downloaded background: {dest}"
    | SeasonPosterFetched(dest: Path)     // "Downloaded season poster: {dest}"
    | EpisodeFetched(filename: string)    // "Downloaded: {filename}"
    | ShowFinished(folderName: string)    // "Finished processing {title} ({year})"
    | AllDone                             // "All done."

  /** The last line of the log is `e`. */
  predicate LastLogged(log: seq<Event>, e: Event) {
    log != [] && log[|log| - 1] == e
  }

  /** The exceptions that escape process_yaml and end the worker thread. */
  datatype Failure =
    | ValueError      // int() of a manifest key that is not a number
    | NotAMapping     // the YAML document is not a mapping (parsed.values() fails)
    | AuthFailed      // "TVDB Authentication failed."
    | NoSuchDirectory // os.listdir of a destination that does not exist
    | NullField       // a JSON null where the code calls a str method

  datatype Outcome = Returned | Raised(failure: Failure)

  datatype Result<+T> = Ok(value: T) | Err(failure: Failure)

  /** One call of download_image, and whether its destination already
      existed as a file when it was made. */
  datatype Fetch = Fetch(url: string, dest: Path, existed: bool)

  /** Since `before` was recorded, every new download went to a destination
      that did not exist yet, for one of the URLs in `urls`. */
  ghost predicate FreshFetches(before: seq<Fetch>, now: seq<Fetch>, urls: set<string>) {
    |before| <= |now| && now[..|before|] == before
    && forall k :: |before| <= k < |now| ==> !now[k].existed && now[k].url in urls
  }

  lemma FreshFetchesChain(a: seq<Fetch>, b: seq<Fetch>, c: seq<Fetch>, u: set<string>, v: set<string>)
    requires FreshFetches(a, b, u) && FreshFetches(b, c, v)
    ensures FreshFetches(a, c, u + v)
  {
    assert c[..|a|] == c[..|b|][..|a|];
    forall k | |a| <= k < |c| ensures !c[k].existed && c[k].url in u + v {
      if k < |b| {
        assert c[k] == c[..|b|][k];
      }
    }
  }

  lemma FreshFetchesAppend(a: seq<Fetch>, b: seq<Fetch>, f: Fetch, urls: set<string>)
    requires FreshFetches(a, b, urls) && !f.existed && f.url in urls
    ensures FreshFetches(a, b + [f], urls)
  {
    assert (b + [f])[..|a|] == b[..|a|];
    assert forall k :: |a| <= k < |b| ==> (b + [f])[k] == b[k];
  }

  /** The destinations of the downloads in `now` after its first |before|. */
  ghost function Fetched(before: seq<Fetch>, now: seq<Fetch>): set<Path>
    decreases |now|
  {
    if |now| <= |before| then {} else Fetched(before, now[..|now| - 1]) + {now[|now| - 1].dest}
  }

  /** Downloads made from `a` to `b`, then from `b` to `c`, are those made
      from `a` to `c`. */
  lemma {:induction false} FetchedChain(a: seq<Fetch>, b: seq<Fetch>, c: seq<Fetch>)
    requires |a| <= |b| <= |c| && c[..|b|] == b
    ensures Fetched(a, c) == Fetched(a, b) + Fetched(b, c)
    decreases |c|
  {
    if |c| == |b| {
      assert c == b;
    } else {
      var c' := c[..|c| - 1];
      assert c'[..|b|] == b;
      FetchedChain(a, b, c');
    }
  }

  /** The part of the workspace a run may change on disk, and the
      downloads it made. */
  datatype Tree = Tree(dirs: set<Path>, files: set<Path>, fetches: seq<Fetch>)

  /** From `before` to `after`, downloads were only appended, and every
      file that appeared was the destination of one of them: only
      download_image writes files. */
  ghost predicate Traced(before: Tree, after: Tree) {
    && |before.fetches| <= |after.fetches| && after.fetches[..|before.fetches|] == before.fetches
    && after.files <= before.files + Fetched(before.fetches, after.fetches)
  }

  /** Every file of `wanted` existed at `before`, or was the destination of
      a download made since: nothing wanted was passed over. */
  ghost predicate Supplied(before: Tree, after: Tree, wanted: set<Path>) {
    wanted <= before.files + Fetched(before.fetches, after.fetches)
  }

  /** Whatever two traced steps in a row each supplied, the pair supplied. */
  lemma SuppliedThen(a: Tree, b: Tree, c: Tree, first: set<Path>, second: set<Path>)
    requires Traced(a, b) && Traced(b, c)
    requires Supplied(a, b, first) && Supplied(b, c, second)
    ensures Traced(a, c) && Supplied(a, c, first + second)
  {
    assert c.fetches[..|a.fetches|] == c.fetches[..|b.fetches|][..|a.fetches|];
    FetchedChain(a.fetches, b.fetches, c.fetches);
  }

  /** What a traced step supplied, the steps before it supplied too. */
  lemma SuppliedLater(a: Tree, b: Tree, c: Tree, wanted: set<Path>)
    requires Traced(a, b) && Traced(b, c) && Supplied(b, c, wanted)
    ensures Supplied(a, c, wanted)
  {
    SuppliedThen(a, b, c, {}, wanted);
  }

  /** A step that made no download and wrote no file is traced. */
  lemma TracedStill(a: Tree, b: Tree)
    requires b.fetches == a.fetches && b.files == a.files
    ensures Traced(a, b)
  {
    assert b.fetches[..|a.fetches|] == b.fetches;
  }

  /** One download of `dest` supplies it. */
  lemma TracedFetch(a: Tree, b: Tree, url: string, dest: Path)
    requires b.fetches == a.fetches + [Fetch(url, dest, false)]
    requires b.files == a.files || b.files == a.files + {dest}
    ensures Traced(a, b) && Supplied(a, b, {dest})
  {
    assert b.fetches[..|a.fetches|] == a.fetches;
  }

  /** What a step may create and fetch. */
  datatype Plan = Plan(dirs: set<Path>, files: set<Path>, urls: set<string>)

  /** From `before` to `after`, directories only grew and only by planned
      ones, only planned files appeared and each by a download, every
      download went to a
      destination that did not exist yet for a planned URL, no file went
      away; and when the whole plan was already in place, nothing changed
      at all. */
  ghost predicate Confined(before: Tree, after: Tree, plan: Plan) {
    && before.dirs <= after.dirs <= before.dirs + plan.dirs
    && before.files <= after.files <= before.files + plan.files
    && Traced(before, after)
    && FreshFetches(before.fetches, after.fetches, plan.urls)
    && (plan.dirs <= before.dirs && plan.files <= before.files ==> after == before)
  }

  /** Standing still is confined to any plan. */
  lemma ConfinedStill(a: Tree, plan: Plan)
    ensures Confined(a, a, plan)
  {
    assert a.fetches[..|a.fetches|] == a.fetches;
  }

  /** Everything `part` plans, `plan` plans too. */
  ghost predicate Within(part: Plan, plan: Plan) {
    part.dirs <= plan.dirs && part.files <= plan.files && part.urls <= plan.urls
  }

  /** A confined step followed by a step confined to a smaller plan is
      confined to the larger one. */
  lemma ConfinedChain(a: Tree, b: Tree, c: Tree, plan: Plan, part: Plan)
    requires Confined(a, b, plan) && Confined(b, c, part) && Within(part, plan)
    ensures Confined(a, c, plan)
  {
    FreshFetchesChain(a.fetches, b.fetches, c.fetches, plan.urls, part.urls);
    SuppliedThen(a, b, c, {}, {});
    assert plan.urls + part.urls == plan.urls;
  }

  /** A step confined to a plan is confined to any larger plan. */
  lemma ConfinedWiden(a: Tree, b: Tree, part: Plan, plan: Plan)
    requires Confined(a, b, part) && Within(part, plan)
    ensures Confined(a, b, plan)
  {
  }

  /** Everything `first` plans, then everything `second` plans. */
  function Then(first: Plan, second: Plan): Plan {
    Plan(first.dirs + second.dirs, first.files + second.files, first.urls + second.urls)
  }

  /** Two confined steps in a row are confined to both plans together. */
  lemma ConfinedThen(a: Tree, b: Tree, c: Tree, first: Plan, second: Plan)
    requires Confined(a, b, first) && Confined(b, c, second)
    ensures Confined(a, c, Then(first, second))
  {
    FreshFetchesChain(a.fetches, b.fetches, c.fetches, first.urls, second.urls);
    SuppliedThen(a, b, c, {}, {});
  }

  class Workspace {
    var dirs: set<Path>
    var files: set<Path>
    var log: seq<Event>
    var progress: int      // progress_var
    var progressMax: int   // progress_max
    ghost var fetches: seq<Fetch>

    ghost function Snapshot(): Tree
      reads this
    {
      Tree(dirs, files, fetches)
    }

    constructor (dirs: set<Path>, files: set<Path>)
      ensures this.dirs == dirs && this.files == files
      ensures log == [] && progress == 0 && progressMax == 0 && fetches == []
    {
      this.dirs := dirs;
      this.files := files;
      log := [];
      progress, progressMax := 0, 0;
      fetches := [];
    }

    /** os.makedirs(p, exist_ok=True) */
    method MakeDirs(p: Path)
      modifies this`dirs
      ensures dirs == old(dirs) + Ancestry(p)
    {
      dirs := dirs + Ancestry(p);
    }

    /** os.path.isfile(p) */
    method IsFile(p: Path) returns (b: bool)
      ensures b <==> p in files
    {
      b := p in files;
    }

    /** os.path.isdir(p) */
    method IsDir(p: Path) returns (b: bool)
      ensures b <==> p in dirs
    {
      b := p in dirs;
    }

    method Log(e: Event)
      modifies this`log
      ensures log == old(log) + [e]
    {
      log := log + [e];
    }

    method SetProgress(n: int)
      modifies this`progress
      ensures progress == n
    {
      progress := n;
    }

    method SetProgressMax(n: int)
      modifies this`progressMax
      ensures progressMax == n
    {
      progressMax := n;
    }

    /** download_image(url, dest): the response may or may not arrive, and
        every failure is swallowed, so the destination may or may not
        appear afterwards; it never appears where a directory stands. */
    method Download(url: string, dest: Path)
      modifies this`files, this`fetches
      ensures fetches == old(fetches) + [Fetch(url, dest, dest in old(files))]
      ensures files == old(files) || (dest !in dirs && files == old(files) + {dest})
    {
      fetches := fetches + [Fetch(url, dest, dest in files)];
      var written: bool := *;
      if written && dest !in dirs {
        files := files + {dest};
      }
    }

    /** The names directly inside dir. */
    function Children(dir: Path): (r: set<string>)
      reads this
      ensures forall n :: n in r <==> Join(dir, n) in dirs + files
    {
      var r := set p | p in dirs + files && |p| == |dir| + 1 && p[..|dir|] == dir :: p[|dir|];
      assert forall n :: Join(dir, n) in dirs + files ==> n in r by {
        forall n | Join(dir, n) in dirs + files ensures n in r {
          var p := Join(dir, n);
          assert p[..|dir|] == dir && p[|dir|] == n;
        }
      }
      assert forall p :: p in dirs + files && |p| == |dir| + 1 && p[..|dir|] == dir ==> p == Join(dir, p[|dir|]);
      r
    }

    /** os.listdir(dir): every entry once, in an order the file system
        chooses; a missing directory raises. */
    method ListDir(dir: Path) returns (names: Option<seq<string>>)
      ensures names.None? <==> dir !in dirs
      ensures names.Some? ==> forall n :: n in names.value <==> Join(dir, n) in dirs + files
      ensures names.Some? ==> forall i, j :: 0 <= i < j < |names.value| ==> names.value[i] != names.value[j]
    {
      if dir !in dirs {
        return None;
      }
      var all := Children(dir);
      var rest := all;
      var listed: seq<string> := [];
      while rest != {}
        invariant forall n :: n in all <==> n in listed || n in rest
        invariant forall n :: n in listed ==> n !in rest
        invariant forall i, j :: 0 <= i < j < |listed| ==> listed[i] != listed[j]
        decreases |rest|
      {
        var n :| n in rest;
        listed := listed + [n];
        rest := rest - {n};
      }
      names := Some(listed);
    }
  }
}
