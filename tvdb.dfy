/** The TVDB downloader, mediux_titlecards_tvdb.py: look each show up on
    TVDB, reuse a show folder whose name starts with "{title} ({year})" or
    create one, then lay out season posters and title cards. Show-level
    artwork is not downloaded in this variant. */
module Tvdb {
  import opened PyStr
  import opened Manifest
  import opened Naming
  import opened Env
  import opened Artwork
  import opened TvdbApi

  /** "Specials" if str(season_num) == "0" else f"Season {int(season_num)}",
      without padding; None stands for the ValueError of int(). */
  function SeasonFolderName(season: Key): (r: Option<string>)
    ensures r.None? <==> KeyInt(season).None?
  {
    if KeyStr(season) == "0" then
      SpecialsKeyIsZero(season);
      Some("Specials")
    else match KeyInt(season)
      case Some(n) => Some("Season " + IntToString(n))
      case None => None
  }

  /** The season folder is "Specials" exactly for the key that prints as "0". */
  lemma SeasonFolderSpecials(season: Key)
    ensures SeasonFolderName(season) == Some("Specials") <==> KeyStr(season) == "0"
  {
    if KeyStr(season) != "0" && KeyInt(season).Some? {
      NotSpecials(IntToString(KeyInt(season).value));
    }
  }

  /** Any other key gives "Season " and str() of the key's value: no
      padding, and the number reads back as the key's value. */
  lemma SeasonFolderNumbered(season: Key)
    requires KeyStr(season) != "0" && KeyInt(season).Some?
    ensures var d := IntToString(KeyInt(season).value);
      SeasonFolderName(season) == Some("Season " + d) && ParseInt(d) == KeyInt(season)
  {
    ParseIntOfIntToString(KeyInt(season).value);
  }

  // ---------------------------------------------------------------------
  // The show folder (lines 142-150).

  /** `os.path.isdir(full_path) and entry.startswith(expected_prefix)` */
  ghost predicate Matches(dirs: set<Path>, base: Path, prefix: string, name: string) {
    Join(base, name) in dirs && StartsWith(name, prefix)
  }

  /** The position of the first entry of `names` that matches, or |names|. */
  ghost function FirstMatch(dirs: set<Path>, base: Path, prefix: string, names: seq<string>): (k: nat)
    ensures k <= |names|
    ensures k < |names| ==> Matches(dirs, base, prefix, names[k])
    ensures forall j :: 0 <= j < k ==> !Matches(dirs, base, prefix, names[j])
  {
    if names == [] then 0
    else if Matches(dirs, base, prefix, names[0]) then 0
    else
      var k := FirstMatch(dirs, base, prefix, names[1..]);
      assert forall j :: 1 <= j < |names| ==> names[j] == names[1..][j - 1];
      1 + k
  }

  /** The for/else over os.listdir(base_folder): the first directory entry,
      in listing order, whose name starts with `prefix`; None when there is
      no such directory at all. A missing base folder raises. */
  method FindShowFolder(ws: Workspace, base: Path, prefix: string) returns (r: Result<Option<Path>>, listing: seq<string>)
    ensures r.Err? <==> base !in ws.dirs
    ensures r.Err? ==> r.failure == NoSuchDirectory
    ensures r.Ok? ==> forall n :: n in listing <==> Join(base, n) in ws.dirs + ws.files
    ensures r.Ok? ==>
      var k := FirstMatch(ws.dirs, base, prefix, listing);
      r.value == if k < |listing| then Some(Join(base, listing[k])) else None
    ensures r == Ok(None) ==> forall n :: Join(base, n) in ws.dirs ==> !StartsWith(n, prefix)
  {
    var names := ws.ListDir(base);
    if names.None? {
      return Err(NoSuchDirectory), [];
    }
    listing := names.value;
    for i := 0 to |listing|
      invariant forall j :: 0 <= j < i ==> !Matches(ws.dirs, base, prefix, listing[j])
    {
      var full := Join(base, listing[i]);
      var isDir := ws.IsDir(full);
      if isDir && StartsWith(listing[i], prefix) {
        return Ok(Some(full)), listing;
      }
    }
    r := Ok(None);
  }

  /** The show folder was chosen as lines 142-150 do, in `before`: an entry
      of base whose name starts with the prefix, and a new one only when no
      directory in base had such a name, and then named by the prefix. */
  ghost predicate FolderChoice(before: set<Path>, base: Path, prefix: string, folder: Path) {
    && Under(base, 1, folder)
    && StartsWith(folder[|base|], prefix)
    && (folder !in before ==>
          && folder == Join(base, prefix)
          && forall n :: Join(base, n) in before ==> !StartsWith(n, prefix))
  }

  /** Lines 142-150: reuse the matching folder, or create the exact one. */
  method FindOrMakeShowFolder(ws: Workspace, base: Path, prefix: string) returns (r: Result<Path>)
    modifies ws
    ensures ws.files == old(ws.files) && ws.fetches == old(ws.fetches) && ws.log == old(ws.log)
    ensures ws.progress == old(ws.progress) && ws.progressMax == old(ws.progressMax)
    ensures r.Err? <==> base !in old(ws.dirs)
    ensures r.Err? ==> r.failure == NoSuchDirectory && ws.dirs == old(ws.dirs)
    ensures r.Ok? ==> FolderChoice(old(ws.dirs), base, prefix, r.value) && r.value in ws.dirs
    ensures r.Ok? && r.value in old(ws.dirs) ==> ws.dirs == old(ws.dirs)
    ensures r.Ok? && r.value !in old(ws.dirs) ==> ws.dirs == old(ws.dirs) + Ancestry(r.value)
    ensures r.Ok? ==> Confined(old(ws.Snapshot()), ws.Snapshot(), Plan(Ancestry(r.value), {}, {}))
  {
    var found, listing := FindShowFolder(ws, base, prefix);
    if found.Err? {
      return Err(found.failure);
    }
    if found.value.Some? {
      ghost var k := FirstMatch(ws.dirs, base, prefix, listing);
      assert Join(base, listing[k])[|base|] == listing[k];
      ConfinedStill(ws.Snapshot(), Plan(Ancestry(found.value.value), {}, {}));
      return Ok(found.value.value);
    }
    var folder := Join(base, prefix);
    assert StartsWith(prefix, prefix);
    ghost var t0 := ws.Snapshot();
    ws.MakeDirs(folder);
    r := Ok(folder);
    assert ws.fetches[..|t0.fetches|] == ws.fetches;
  }

  // ---------------------------------------------------------------------
  // What a show may create once its folder is chosen.

  /** Nothing, or the titles get_episode_titles returned. */
  function TitlesOrEmpty(t: Result<map<string, string>>): map<string, string> {
    if t.Ok? then t.value else map[]
  }

  /** A season's folder, then its poster, then its cards; nothing for a
      season whose key int() rejects. */
  ghost function SeasonPlan(p: Provider, key: Key, r: Resolved, folder: Path, season: SeasonEntry): Plan {
    match KeyInt(season.key)
    case None => Plan({}, {}, {})
    case Some(n) =>
      var dir := Join(folder, SeasonFolderName(season.key).value);
      Then(SeasonFolderPlan(dir, season), CardsPlan(dir, r.title, r.year, season, TitlesOrEmpty(SeasonTitles(p, key, n))))
  }

  /** Every season's folder, poster and cards, season by season. */
  ghost function SeasonsPlan(p: Provider, key: Key, r: Resolved, folder: Path, seasons: seq<SeasonEntry>): Plan {
    if seasons == [] then Plan({}, {}, {})
    else Then(SeasonsPlan(p, key, r, folder, seasons[..|seasons| - 1]), SeasonPlan(p, key, r, folder, seasons[|seasons| - 1]))
  }

  lemma {:induction false} SeasonsPlanPrefix(p: Provider, key: Key, r: Resolved, folder: Path, seasons: seq<SeasonEntry>, k: int)
    requires 0 <= k <= |seasons|
    ensures Within(SeasonsPlan(p, key, r, folder, seasons[..k]), SeasonsPlan(p, key, r, folder, seasons))
    decreases |seasons|
  {
    if k < |seasons| {
      var pre := seasons[..|seasons| - 1];
      assert pre[..k] == seasons[..k];
      SeasonsPlanPrefix(p, key, r, folder, pre, k);
    } else {
      assert seasons[..k] == seasons;
    }
  }

  /** A season downloads only URLs it names, into files two levels below
      the show folder. */
  lemma SeasonPlanBounds(p: Provider, key: Key, r: Resolved, folder: Path, season: SeasonEntry)
    ensures SeasonPlan(p, key, r, folder, season).urls <= SeasonUrls(season)
    ensures forall f :: f in SeasonPlan(p, key, r, folder, season).files ==> Under(folder, 2, f)
  {
    if KeyInt(season.key).Some? {
      var dir := Join(folder, SeasonFolderName(season.key).value);
      var titles := TitlesOrEmpty(SeasonTitles(p, key, KeyInt(season.key).value));
      CardFilesUnder(dir, r.title, r.year, season.key, titles, season.episodes);
      assert forall f :: f in SeasonPosterFile(dir, season) ==> Under(dir, 1, f);
      forall f | f in SeasonPlan(p, key, r, folder, season).files ensures Under(folder, 2, f) {
        UnderJoin(folder, SeasonFolderName(season.key).value, 1, f);
      }
    }
  }

  /** A show's seasons download only URLs its seasons name, into files two
      levels below the show folder. */
  lemma {:induction false} SeasonsPlanBounds(p: Provider, key: Key, r: Resolved, folder: Path, seasons: seq<SeasonEntry>)
    ensures SeasonsPlan(p, key, r, folder, seasons).urls <= SeasonsUrls(seasons)
    ensures forall f :: f in SeasonsPlan(p, key, r, folder, seasons).files ==> Under(folder, 2, f)
  {
    if seasons != [] {
      var pre, last := seasons[..|seasons| - 1], seasons[|seasons| - 1];
      SeasonsPlanBounds(p, key, r, folder, pre);
      SeasonsUrlsLast(seasons);
      SeasonPlanBounds(p, key, r, folder, last);
    }
  }

  /** The folder a show was laid out in, and what its seasons plan. */
  ghost function LayoutPlan(p: Provider, key: Key, r: Resolved, folder: Path, seasons: seq<SeasonEntry>): Plan {
    Then(Plan(Ancestry(folder), {}, {}), SeasonsPlan(p, key, r, folder, seasons))
  }

  // ---------------------------------------------------------------------
  // What a whole run may do.

  /** Every URL a season of the manifest names; show-level artwork is not
      among them unless a season names it too. */
  ghost function RunUrls(shows: seq<ShowEntry>): set<string> {
    set sh, u | sh in shows && u in SeasonsUrls(sh.seasons) :: u
  }

  /** From `before` to `after`, directories and files only grew, every new
      file lies in a season folder of a show folder in `base`, and every
      download went to a destination that did not exist yet for one of
      `urls`. */
  ghost predicate Grown(before: Tree, after: Tree, base: Path, urls: set<string>) {
    && before.dirs <= after.dirs
    && before.files <= after.files
    && (forall f :: f in after.files && f !in before.files ==> Under(base, 3, f))
    && Traced(before, after)
    && FreshFetches(before.fetches, after.fetches, urls)
  }

  lemma GrownChain(a: Tree, b: Tree, c: Tree, base: Path, urls: set<string>, part: set<string>)
    requires Grown(a, b, base, urls) && Grown(b, c, base, part) && part <= urls
    ensures Grown(a, c, base, urls)
  {
    FreshFetchesChain(a.fetches, b.fetches, c.fetches, urls, part);
    SuppliedThen(a, b, c, {}, {});
    assert urls + part == urls;
  }

  /** A show laid out in a folder directly in `base` grows the tree as a
      run may. */
  lemma GrownOfLayout(a: Tree, b: Tree, p: Provider, key: Key, r: Resolved, base: Path, folder: Path, seasons: seq<SeasonEntry>)
    requires Under(base, 1, folder)
    requires Confined(a, b, LayoutPlan(p, key, r, folder, seasons))
    ensures Grown(a, b, base, SeasonsUrls(seasons))
  {
    SeasonsPlanBounds(p, key, r, folder, seasons);
    forall f | f in b.files && f !in a.files ensures Under(base, 3, f) {
      assert Under(folder, 2, f);
      assert f[..|base|] == f[..|folder|][..|base|];
    }
  }

  /** A show that resolves stays within the plan of the folder it was laid
      out in, and a reused folder gains only its seasons' artwork. */
  ghost predicate StaysInLayout(before: Tree, after: Tree, p: Provider, show: ShowEntry, folder: Path) {
    Resolves(p)(show.key) ==>
      var r := Resolve(p, show.key).value.value;
      && Confined(before, after, LayoutPlan(p, show.key, r, folder, show.seasons))
      && (folder in before.dirs ==> Confined(before, after, SeasonsPlan(p, show.key, r, folder, show.seasons)))
  }

  /** The folder a show was laid out in, if it resolves: a folder in
      `base` whose name starts with "{title} ({year})". */
  ghost predicate ShowFolderIn(p: Provider, base: Path, show: ShowEntry, folder: Path) {
    Resolves(p)(show.key) ==>
      var r := Resolve(p, show.key).value.value;
      Under(base, 1, folder) && StartsWith(folder[|base|], ShowFolderName(r.title, r.year))
  }

  /** The season posters and cards a show plans in its folder; nothing
      for a show the loop skips. */
  ghost function ShowFiles(p: Provider, show: ShowEntry, folder: Path): set<Path> {
    if Resolves(p)(show.key) then SeasonsPlan(p, show.key, Resolve(p, show.key).value.value, folder, show.seasons).files
    else {}
  }

  /** Every show's planned files in the folder it was laid out in. */
  ghost function RunFiles(p: Provider, shows: seq<ShowEntry>, folders: seq<Path>): set<Path>
    requires |folders| == |shows|
  {
    if shows == [] then {}
    else RunFiles(p, shows[..|shows| - 1], folders[..|folders| - 1]) + ShowFiles(p, shows[|shows| - 1], folders[|folders| - 1])
  }

  lemma RunFilesStep(p: Provider, shows: seq<ShowEntry>, folders: seq<Path>, folder: Path, i: int)
    requires 0 <= i < |shows| && |folders| == i
    ensures RunFiles(p, shows[..i + 1], folders + [folder]) == RunFiles(p, shows[..i], folders) + ShowFiles(p, shows[i], folder)
  {
    assert shows[..i + 1][..i] == shows[..i];
    assert (folders + [folder])[..i] == folders;
  }

  /** One more show placed in its folder: the folders so far stay right. */
  lemma FoldersStep(p: Provider, base: Path, shows: seq<ShowEntry>, folders: seq<Path>, folder: Path, i: int)
    requires 0 <= i < |shows| && |folders| == i
    requires ShowFolderIn(p, base, shows[i], folder)
    ensures (forall j :: 0 <= j < i ==> ShowFolderIn(p, base, shows[j], folders[j])) ==>
              forall j :: 0 <= j <= i ==> ShowFolderIn(p, base, shows[j], (folders + [folder])[j])
  {
  }

  // ---------------------------------------------------------------------
  // The loops of process_yaml.

  /** Lines 169-185 of one season whose folder and poster are in place:
      the season's titles, then its cards. */
  method SeasonCards(ws: Workspace, s: Session, login: Option<string>, p: Provider, key: Key, r: Resolved,
                     dir: Path, season: SeasonEntry, current: int)
    returns (outcome: Outcome, next: int)
    requires KeyInt(season.key).Some?
    modifies ws, s
    ensures ws.progressMax == old(ws.progressMax)
    ensures current <= next <= current + |season.episodes|
    ensures outcome.Raised? ==> outcome.failure in {ValueError, NullField, AuthFailed}
    ensures outcome == Raised(AuthFailed) ==> !CanAuth(old(s.token), login)
    ensures CanAuth(old(s.token), login) ==>
      (outcome == Raised(NullField) <==> SeasonTitles(p, key, KeyInt(season.key).value).Err?)
    ensures outcome.Returned? ==> next == current + |season.episodes|
    ensures ws.progress == if next == current then old(ws.progress) else next
    ensures Confined(old(ws.Snapshot()), ws.Snapshot(),
      CardsPlan(dir, r.title, r.year, season, TitlesOrEmpty(SeasonTitles(p, key, KeyInt(season.key).value))))
    ensures outcome.Returned? ==> Supplied(old(ws.Snapshot()), ws.Snapshot(),
      CardsPlan(dir, r.title, r.year, season, TitlesOrEmpty(SeasonTitles(p, key, KeyInt(season.key).value))).files)
    ensures old(ws.log) <= ws.log
    ensures Authed(old(s.token), old(s.logins), s.token, s.logins, login)
  {
    ghost var requested;
    var titles;
    titles, requested := GetEpisodeTitles(s, login, p, key, KeyInt(season.key).value);
    if titles.Err? {
      if CanAuth(old(s.token), login) {
        CollectFails(PagesOf(p, key), KeyInt(season.key).value, 0, map[]);
      }
      return Raised(titles.failure), current;
    }
    outcome, next := ProcessEpisodes(ws, dir, r.title, r.year, season.key, titles.value, season.episodes, current);
  }

  /** One pass of the season loop (lines 152-185). */
  method ProcessSeason(ws: Workspace, s: Session, login: Option<string>, p: Provider, key: Key, r: Resolved,
                       folder: Path, season: SeasonEntry, current: int)
    returns (outcome: Outcome, next: int)
    modifies ws, s
    ensures ws.progressMax == old(ws.progressMax)
    ensures current <= next <= current + |season.episodes|
    ensures outcome.Raised? ==> outcome.failure in {ValueError, NullField, AuthFailed}
    ensures outcome == Raised(AuthFailed) ==> !CanAuth(old(s.token), login)
    ensures KeyInt(season.key).None? ==> outcome == Raised(ValueError) && next == current && ws.log == old(ws.log)
    ensures KeyInt(season.key).Some? && CanAuth(old(s.token), login) ==>
      (outcome == Raised(NullField) <==> SeasonTitles(p, key, KeyInt(season.key).value).Err?)
    ensures outcome.Returned? ==> next == current + |season.episodes| && SeasonPlan(p, key, r, folder, season).dirs <= ws.dirs
    ensures ws.progress == if next == current then old(ws.progress) else next
    ensures Confined(old(ws.Snapshot()), ws.Snapshot(), SeasonPlan(p, key, r, folder, season))
    ensures outcome.Returned? ==> Supplied(old(ws.Snapshot()), ws.Snapshot(), SeasonPlan(p, key, r, folder, season).files)
    ensures old(ws.log) <= ws.log
    ensures Authed(old(s.token), old(s.logins), s.token, s.logins, login)
  {
    ghost var t0 := ws.Snapshot();
    var name := SeasonFolderName(season.key);
    if name.None? {
      return Raised(ValueError), current;
    }
    var dir := Join(folder, name.value);
    MakeSeasonFolder(ws, dir, season);
    ghost var t2 := ws.Snapshot();
    outcome, next := SeasonCards(ws, s, login, p, key, r, dir, season, current);
    ConfinedThen(t0, t2, ws.Snapshot(), SeasonFolderPlan(dir, season),
      CardsPlan(dir, r.title, r.year, season, TitlesOrEmpty(SeasonTitles(p, key, KeyInt(season.key).value))));
    if outcome.Returned? {
      SuppliedThen(t0, t2, ws.Snapshot(), SeasonFolderPlan(dir, season).files,
        CardsPlan(dir, r.title, r.year, season, TitlesOrEmpty(SeasonTitles(p, key, KeyInt(season.key).value))).files);
    }
  }

  /** One more season of a show: its plan joins the plans of the seasons
      before it, inside the plan of all the show's seasons. */
  lemma SeasonsStep(p: Provider, key: Key, r: Resolved, folder: Path, seasons: seq<SeasonEntry>, i: int, a: Tree, b: Tree, c: Tree)
    requires 0 <= i < |seasons|
    requires Confined(a, b, SeasonsPlan(p, key, r, folder, seasons[..i])) && Confined(b, c, SeasonPlan(p, key, r, folder, seasons[i]))
    ensures Confined(a, c, SeasonsPlan(p, key, r, folder, seasons[..i + 1])) && Confined(a, c, SeasonsPlan(p, key, r, folder, seasons))
    ensures SeasonsPlan(p, key, r, folder, seasons[..i]).dirs <= b.dirs && SeasonPlan(p, key, r, folder, seasons[i]).dirs <= c.dirs ==>
              SeasonsPlan(p, key, r, folder, seasons[..i + 1]).dirs <= c.dirs
    ensures Supplied(a, b, SeasonsPlan(p, key, r, folder, seasons[..i]).files) && Supplied(b, c, SeasonPlan(p, key, r, folder, seasons[i]).files) ==>
              Supplied(a, c, SeasonsPlan(p, key, r, folder, seasons[..i + 1]).files)
    ensures SeasonsEpisodes(seasons[..i + 1]) == SeasonsEpisodes(seasons[..i]) + |seasons[i].episodes|
    ensures SeasonsEpisodes(seasons[..i + 1]) <= SeasonsEpisodes(seasons)
  {
    assert seasons[..i + 1][..i] == seasons[..i];
    if Supplied(a, b, SeasonsPlan(p, key, r, folder, seasons[..i]).files) && Supplied(b, c, SeasonPlan(p, key, r, folder, seasons[i]).files) {
      SuppliedThen(a, b, c, SeasonsPlan(p, key, r, folder, seasons[..i]).files, SeasonPlan(p, key, r, folder, seasons[i]).files);
    }
    ConfinedThen(a, b, c, SeasonsPlan(p, key, r, folder, seasons[..i]), SeasonPlan(p, key, r, folder, seasons[i]));
    SeasonsEpisodesPrefix(seasons, i + 1);
    SeasonsPlanPrefix(p, key, r, folder, seasons, i + 1);
    ConfinedWiden(a, c, SeasonsPlan(p, key, r, folder, seasons[..i + 1]), SeasonsPlan(p, key, r, folder, seasons));
  }

  /** The season loop of one show (lines 152-185): it stops at the first
      season that raises. */
  method ProcessSeasons(ws: Workspace, s: Session, login: Option<string>, p: Provider, key: Key, r: Resolved,
                        folder: Path, seasons: seq<SeasonEntry>, current: int)
    returns (outcome: Outcome, next: int)
    modifies ws, s
    ensures ws.progressMax == old(ws.progressMax)
    ensures current <= next <= current + SeasonsEpisodes(seasons)
    ensures outcome.Raised? ==> outcome.failure in {ValueError, NullField, AuthFailed}
    ensures outcome == Raised(AuthFailed) ==> !CanAuth(old(s.token), login)
    ensures outcome.Returned? ==> next == current + SeasonsEpisodes(seasons)
    ensures ws.progress == if next == current then old(ws.progress) else next
    ensures Confined(old(ws.Snapshot()), ws.Snapshot(), SeasonsPlan(p, key, r, folder, seasons))
    ensures outcome.Returned? ==> Supplied(old(ws.Snapshot()), ws.Snapshot(), SeasonsPlan(p, key, r, folder, seasons).files)
    ensures old(ws.log) <= ws.log
    ensures Authed(old(s.token), old(s.logins), s.token, s.logins, login)
  {
    ghost var t0, log0, progress0 := ws.Snapshot(), ws.log, ws.progress;
    ghost var token0, logins0 := s.token, s.logins;
    next := current;
    var i := 0;
    while i < |seasons|
      invariant 0 <= i <= |seasons|
      invariant next == current + SeasonsEpisodes(seasons[..i])
      invariant ws.progressMax == old(ws.progressMax)
      invariant next == current ==> ws.progress == progress0
      invariant next != current ==> ws.progress == next
      invariant Confined(t0, ws.Snapshot(), SeasonsPlan(p, key, r, folder, seasons[..i]))
      invariant Supplied(t0, ws.Snapshot(), SeasonsPlan(p, key, r, folder, seasons[..i]).files)
      invariant log0 <= ws.log
      invariant Authed(token0, logins0, s.token, s.logins, login)
    {
      ghost var before, token1, logins1 := ws.Snapshot(), s.token, s.logins;
      var o, n := ProcessSeason(ws, s, login, p, key, r, folder, seasons[i], next);
      SeasonsStep(p, key, r, folder, seasons, i, t0, before, ws.Snapshot());
      AuthedChain(token0, logins0, token1, logins1, s.token, s.logins, login);
      if o.Raised? {
        AuthedCanAuth(token0, logins0, token1, logins1, login);
        return o, n;
      }
      next := n;
      i := i + 1;
    }
    assert seasons[..i] == seasons;
    outcome := Returned;
  }

  /** Lines 152-187 once the show folder is chosen: the seasons, then the
      "Finished processing" line unless a season raised. */
  method FinishShow(ws: Workspace, s: Session, login: Option<string>, p: Provider, key: Key, r: Resolved,
                    folder: Path, seasons: seq<SeasonEntry>, current: int)
    returns (outcome: Outcome, next: int)
    modifies ws, s
    ensures ws.progressMax == old(ws.progressMax)
    ensures current <= next <= current + SeasonsEpisodes(seasons)
    ensures outcome.Raised? ==> outcome.failure in {ValueError, NullField, AuthFailed}
    ensures outcome == Raised(AuthFailed) ==> !CanAuth(old(s.token), login)
    ensures outcome.Returned? ==>
      && next == current + SeasonsEpisodes(seasons)
      && LastLogged(ws.log, ShowFinished(ShowFolderName(r.title, r.year)))
    ensures ws.progress == if next == current then old(ws.progress) else next
    ensures Confined(old(ws.Snapshot()), ws.Snapshot(), SeasonsPlan(p, key, r, folder, seasons))
    ensures outcome.Returned? ==> Supplied(old(ws.Snapshot()), ws.Snapshot(), SeasonsPlan(p, key, r, folder, seasons).files)
    ensures old(ws.log) <= ws.log
    ensures Authed(old(s.token), old(s.logins), s.token, s.logins, login)
  {
    outcome, next := ProcessSeasons(ws, s, login, p, key, r, folder, seasons, current);
    if outcome.Returned? {
      ws.Log(ShowFinished(ShowFolderName(r.title, r.year)));
    }
  }

  /** Lines 142-187 for a show that resolved: choose its folder, lay out
      its seasons, then the "Finished processing" line. */
  method LayOutShow(ws: Workspace, s: Session, login: Option<string>, p: Provider, base: Path, key: Key, r: Resolved,
                    seasons: seq<SeasonEntry>, current: int)
    returns (outcome: Outcome, next: int, folder: Path)
    modifies ws, s
    ensures ws.progressMax == old(ws.progressMax)
    ensures current <= next <= current + SeasonsEpisodes(seasons)
    ensures outcome == Raised(NoSuchDirectory) <==> base !in old(ws.dirs)
    ensures outcome == Raised(NoSuchDirectory) ==>
      ws.Snapshot() == old(ws.Snapshot()) && ws.log == old(ws.log) && ws.progress == old(ws.progress) && next == current
    ensures outcome.Raised? ==> outcome.failure in {NoSuchDirectory, ValueError, NullField, AuthFailed}
    ensures outcome == Raised(AuthFailed) ==> !CanAuth(old(s.token), login)
    ensures outcome.Returned? ==>
      && next == current + SeasonsEpisodes(seasons)
      && LastLogged(ws.log, ShowFinished(ShowFolderName(r.title, r.year)))
    ensures outcome != Raised(NoSuchDirectory) ==> FolderChoice(old(ws.dirs), base, ShowFolderName(r.title, r.year), folder)
    ensures ws.progress == if next == current then old(ws.progress) else next
    ensures Confined(old(ws.Snapshot()), ws.Snapshot(), LayoutPlan(p, key, r, folder, seasons))
    ensures outcome != Raised(NoSuchDirectory) && folder in old(ws.dirs) ==>
      Confined(old(ws.Snapshot()), ws.Snapshot(), SeasonsPlan(p, key, r, folder, seasons))
    ensures outcome.Returned? ==> Supplied(old(ws.Snapshot()), ws.Snapshot(), SeasonsPlan(p, key, r, folder, seasons).files)
    ensures old(ws.log) <= ws.log
    ensures Authed(old(s.token), old(s.logins), s.token, s.logins, login)
  {
    var prefix := ShowFolderName(r.title, r.year);
    ghost var t0 := ws.Snapshot();
    var found := FindOrMakeShowFolder(ws, base, prefix);
    if found.Err? {
      ConfinedStill(t0, LayoutPlan(p, key, r, Join(base, prefix), seasons));
      return Raised(NoSuchDirectory), current, Join(base, prefix);
    }
    folder := found.value;
    ghost var t1 := ws.Snapshot();
    outcome, next := FinishShow(ws, s, login, p, key, r, folder, seasons, current);
    ConfinedThen(t0, t1, ws.Snapshot(), Plan(Ancestry(folder), {}, {}), SeasonsPlan(p, key, r, folder, seasons));
    if outcome.Returned? {
      SuppliedLater(t0, t1, ws.Snapshot(), SeasonsPlan(p, key, r, folder, seasons).files);
    }
  }

  /** Lines 142-187 for a show that resolved to `r`, seen from the run:
      what it may create and fetch. */
  method ProcessResolved(ws: Workspace, s: Session, login: Option<string>, p: Provider, base: Path, show: ShowEntry,
                         r: Resolved, current: int)
    returns (outcome: Outcome, next: int, folder: Path)
    modifies ws, s
    ensures ws.progressMax == old(ws.progressMax)
    ensures outcome == Raised(NoSuchDirectory) <==> base !in old(ws.dirs)
    ensures outcome == Raised(NoSuchDirectory) ==>
      ws.Snapshot() == old(ws.Snapshot()) && ws.progress == old(ws.progress) && next == current
    ensures outcome.Raised? ==> outcome.failure in {NoSuchDirectory, ValueError, NullField, AuthFailed}
    ensures outcome == Raised(AuthFailed) ==> !CanAuth(old(s.token), login)
    ensures current <= next <= current + SeasonsEpisodes(show.seasons)
    ensures outcome.Returned? ==>
      && next == current + SeasonsEpisodes(show.seasons)
      && LastLogged(ws.log, ShowFinished(ShowFolderName(r.title, r.year)))
    ensures ws.progress == if next == current then old(ws.progress) else next
    ensures Grown(old(ws.Snapshot()), ws.Snapshot(), base, SeasonsUrls(show.seasons))
    ensures outcome != Raised(NoSuchDirectory) ==>
      Confined(old(ws.Snapshot()), ws.Snapshot(), LayoutPlan(p, show.key, r, folder, show.seasons))
    ensures outcome != Raised(NoSuchDirectory) && folder in old(ws.dirs) ==>
      Confined(old(ws.Snapshot()), ws.Snapshot(), SeasonsPlan(p, show.key, r, folder, show.seasons))
    ensures outcome.Returned? ==>
      && FolderChoice(old(ws.dirs), base, ShowFolderName(r.title, r.year), folder)
      && Supplied(old(ws.Snapshot()), ws.Snapshot(), SeasonsPlan(p, show.key, r, folder, show.seasons).files)
    ensures old(ws.log) <= ws.log
    ensures Authed(old(s.token), old(s.logins), s.token, s.logins, login)
  {
    ghost var t0 := ws.Snapshot();
    outcome, next, folder := LayOutShow(ws, s, login, p, base, show.key, r, show.seasons, current);
    if outcome == Raised(NoSuchDirectory) {
      assert ws.fetches[..|t0.fetches|] == ws.fetches;
      TracedStill(t0, ws.Snapshot());
    } else {
      GrownOfLayout(t0, ws.Snapshot(), p, show.key, r, base, folder, show.seasons);
    }
  }

  /** One pass of the show loop (lines 136-187). The lookup asks for the
      headers first, so a refused login raises before anything else; a
      show without title or year is logged and skipped. */
  method ProcessShow(ws: Workspace, s: Session, login: Option<string>, p: Provider, base: Path, show: ShowEntry, current: int)
    returns (outcome: Outcome, next: int, ghost folder: Path)
    modifies ws, s
    ensures ws.progressMax == old(ws.progressMax)
    ensures outcome == Raised(AuthFailed) <==> !CanAuth(old(s.token), login)
    ensures outcome == Raised(AuthFailed) ==> ws.log == old(ws.log)
    ensures outcome == Raised(NoSuchDirectory) <==>
      CanAuth(old(s.token), login) && Resolves(p)(show.key) && base !in old(ws.dirs)
    ensures CanAuth(old(s.token), login) && Resolve(p, show.key).Err? ==> outcome == Raised(NullField)
    ensures CanAuth(old(s.token), login) && Resolve(p, show.key) == Ok(None) ==>
      outcome == Returned && ws.log == old(ws.log) + [NoTitleYear(KeyStr(show.key))]
    ensures (outcome.Raised? && outcome.failure in {AuthFailed, NoSuchDirectory})
            || !(CanAuth(old(s.token), login) && Resolves(p)(show.key)) ==>
      ws.Snapshot() == old(ws.Snapshot()) && ws.progress == old(ws.progress) && next == current
    ensures outcome.Raised? ==> outcome.failure in {NoSuchDirectory, ValueError, NullField, AuthFailed}
    ensures current <= next <= current + ShowCount(Resolves(p), show)
    ensures outcome.Returned? ==> next == current + ShowCount(Resolves(p), show)
    ensures outcome.Returned? && Resolves(p)(show.key) ==>
      var r := Resolve(p, show.key).value.value;
      LastLogged(ws.log, ShowFinished(ShowFolderName(r.title, r.year)))
    ensures ws.progress == if next == current then old(ws.progress) else next
    ensures Grown(old(ws.Snapshot()), ws.Snapshot(), base, SeasonsUrls(show.seasons))
    ensures outcome.Returned? ==>
      ShowFolderIn(p, base, show, folder) && Supplied(old(ws.Snapshot()), ws.Snapshot(), ShowFiles(p, show, folder))
    ensures CanAuth(old(s.token), login) && base in old(ws.dirs) ==>
      StaysInLayout(old(ws.Snapshot()), ws.Snapshot(), p, show, folder)
    ensures old(ws.log) <= ws.log
    ensures Authed(old(s.token), old(s.logins), s.token, s.logins, login)
  {
    folder := base;
    var info := GetShowInfo(s, login, p, show.key);
    if info.Err? {
      if CanAuth(old(s.token), login) {
        ShowInfoFails(p, show.key);
      }
      return Raised(info.failure), current, folder;
    }
    if info.value.None? || info.value.value.0 == "" || info.value.value.1 == "" {
      ws.Log(NoTitleYear(KeyStr(show.key)));
      return Returned, current, folder;
    }
    outcome, next, folder := ProcessResolved(ws, s, login, p, base, show, Resolved(info.value.value.0, info.value.value.1), current);
  }

  /** Show `i` of the run, after the shows before it: what the loop of
      process_yaml needs to know about one of its passes. */
  method ProcessShowOf(ws: Workspace, s: Session, login: Option<string>, p: Provider, base: Path, shows: seq<ShowEntry>,
                       i: int, current: int, ghost tree0: Tree, ghost token0: Option<string>, ghost logins0: nat,
                       ghost folders: seq<Path>)
    returns (outcome: Outcome, next: int, ghost folder: Path)
    requires 0 <= i < |shows| && |folders| == i
    requires Grown(tree0, ws.Snapshot(), base, RunUrls(shows))
    requires Authed(token0, logins0, s.token, s.logins, login)
    modifies ws, s
    ensures ws.progressMax == old(ws.progressMax)
    ensures current <= next
    ensures outcome.Raised? ==> outcome.failure in {NoSuchDirectory, ValueError, NullField, AuthFailed}
    ensures outcome == Raised(AuthFailed) <==> !CanAuth(token0, login)
    ensures outcome == Raised(AuthFailed) ==>
      ws.Snapshot() == old(ws.Snapshot()) && ws.log == old(ws.log) && ws.progress == old(ws.progress)
    ensures outcome == Raised(NoSuchDirectory) ==> base !in old(ws.dirs)
    ensures outcome.Raised? ==> next - current <= Counted(Resolves(p), shows) - Counted(Resolves(p), shows[..i])
    ensures outcome.Returned? ==>
      && next - current == Counted(Resolves(p), shows[..i + 1]) - Counted(Resolves(p), shows[..i])
      && Counted(Resolves(p), shows[..i + 1]) <= Counted(Resolves(p), shows)
    ensures ws.progress == if next == current then old(ws.progress) else next
    ensures Grown(tree0, ws.Snapshot(), base, RunUrls(shows))
    ensures outcome.Returned? ==>
      && ((forall j :: 0 <= j < i ==> ShowFolderIn(p, base, shows[j], folders[j])) ==>
            forall j :: 0 <= j <= i ==> ShowFolderIn(p, base, shows[j], (folders + [folder])[j]))
      && (Supplied(tree0, old(ws.Snapshot()), RunFiles(p, shows[..i], folders)) ==>
            Supplied(tree0, ws.Snapshot(), RunFiles(p, shows[..i + 1], folders + [folder])))
    ensures old(ws.log) <= ws.log
    ensures Authed(token0, logins0, s.token, s.logins, login)
  {
    ghost var before, token1, logins1 := ws.Snapshot(), s.token, s.logins;
    outcome, next, folder := ProcessShow(ws, s, login, p, base, shows[i], current);
    AuthedCanAuth(token0, logins0, token1, logins1, login);
    AuthedChain(token0, logins0, token1, logins1, s.token, s.logins, login);
    CountedStep(Resolves(p), shows, i);
    assert shows[i] in shows;
    GrownChain(tree0, before, ws.Snapshot(), base, RunUrls(shows), SeasonsUrls(shows[i].seasons));
    if outcome.Returned? {
      FoldersStep(p, base, shows, folders, folder, i);
      RunFilesStep(p, shows, folders, folder, i);
      if Supplied(tree0, before, RunFiles(p, shows[..i], folders)) {
        SuppliedThen(tree0, before, ws.Snapshot(), RunFiles(p, shows[..i], folders), ShowFiles(p, shows[i], folder));
      }
    }
  }

  /** The body of process_yaml for a manifest that is a mapping
      (lines 128-189). */
  method ProcessShows(ws: Workspace, s: Session, login: Option<string>, base: Path, p: Provider, shows: seq<ShowEntry>)
    returns (outcome: Outcome, current: int, ghost folders: seq<Path>)
    modifies ws, s
    ensures ws.progressMax == Total(shows)
    ensures 0 <= current <= Counted(Resolves(p), shows) <= Total(shows)
    ensures outcome.Raised? ==> outcome.failure in {NoSuchDirectory, ValueError, NullField, AuthFailed}
    ensures outcome == Raised(AuthFailed) <==> shows != [] && !CanAuth(old(s.token), login)
    ensures outcome == Raised(AuthFailed) ==>
      ws.Snapshot() == old(ws.Snapshot()) && ws.log == old(ws.log) && ws.progress == old(ws.progress)
    ensures outcome == Raised(NoSuchDirectory) ==> base !in old(ws.dirs)
    ensures outcome.Returned? ==>
      && current == Counted(Resolves(p), shows) && LastLogged(ws.log, AllDone)
      && |folders| == |shows| && (forall i :: 0 <= i < |shows| ==> ShowFolderIn(p, base, shows[i], folders[i]))
      && Supplied(old(ws.Snapshot()), ws.Snapshot(), RunFiles(p, shows, folders))
    ensures ws.progress == if current == 0 then old(ws.progress) else current
    ensures Grown(old(ws.Snapshot()), ws.Snapshot(), base, RunUrls(shows))
    ensures old(ws.log) <= ws.log
    ensures Authed(old(s.token), old(s.logins), s.token, s.logins, login)
  {
    ghost var tree0, log0, progress0 := ws.Snapshot(), ws.log, ws.progress;
    ghost var token0, logins0 := s.token, s.logins;
    CountedAtMostTotal(Resolves(p), shows);
    ws.SetProgressMax(Total(shows));
    current := 0;
    folders := [];
    var i := 0;
    while i < |shows|
      invariant 0 <= i <= |shows|
      invariant current == Counted(Resolves(p), shows[..i])
      invariant ws.progressMax == Total(shows)
      invariant ws.progress == if current == 0 then progress0 else current
      invariant Grown(tree0, ws.Snapshot(), base, RunUrls(shows))
      invariant |folders| == i && forall j :: 0 <= j < i ==> ShowFolderIn(p, base, shows[j], folders[j])
      invariant Supplied(tree0, ws.Snapshot(), RunFiles(p, shows[..i], folders))
      invariant log0 <= ws.log
      invariant Authed(token0, logins0, s.token, s.logins, login)
      invariant i > 0 ==> CanAuth(token0, login)
      invariant i == 0 ==> ws.Snapshot() == tree0 && ws.log == log0 && ws.progress == progress0
    {
      var o, n, folder := ProcessShowOf(ws, s, login, p, base, shows, i, current, tree0, token0, logins0, folders);
      if o.Raised? {
        return o, n, folders;
      }
      current := n;
      folders := folders + [folder];
      i := i + 1;
    }
    assert shows[..i] == shows;
    ws.Log(AllDone);
    outcome := Returned;
  }

  /** process_yaml (lines 121-189). A parse error is logged and ends the
      run; a document that is not a mapping raises before anything is
      touched. Otherwise the bar's maximum is the manifest's episode total,
      the count never passes what the resolvable shows hold, a refused
      login raises at the first show and changes nothing else, a missing
      destination folder raises, every download goes to a destination that
      was not there yet for a URL a season names, and every new file lies in
      a season folder of a show folder in the destination. */
  method ProcessYaml(ws: Workspace, s: Session, login: Option<string>, doc: Document, base: Path, p: Provider)
    returns (outcome: Outcome, current: int, ghost folders: seq<Path>)
    modifies ws, s
    ensures doc.Unparsable? ==>
      && outcome == Returned
      && ws.log == old(ws.log) + [ParseFailed(doc.error)]
      && ws.dirs == old(ws.dirs) && ws.files == old(ws.files) && ws.fetches == old(ws.fetches)
      && ws.progress == old(ws.progress) && ws.progressMax == old(ws.progressMax)
    ensures doc.NotAMapping? ==>
      && outcome == Raised(Failure.NotAMapping)
      && ws.log == old(ws.log)
      && ws.dirs == old(ws.dirs) && ws.files == old(ws.files) && ws.fetches == old(ws.fetches)
      && ws.progress == old(ws.progress) && ws.progressMax == old(ws.progressMax)
    ensures doc.Mapping? ==>
      var shows := doc.shows;
      && ws.progressMax == Total(shows)
      && 0 <= current <= Counted(Resolves(p), shows) <= Total(shows)
      && (outcome.Raised? ==> outcome.failure in {NoSuchDirectory, ValueError, NullField, AuthFailed})
      && (outcome == Raised(AuthFailed) <==> shows != [] && !CanAuth(old(s.token), login))
      && (outcome == Raised(NoSuchDirectory) ==> base !in old(ws.dirs))
      && (outcome.Returned? ==>
            && current == Counted(Resolves(p), shows) && LastLogged(ws.log, AllDone)
            && |folders| == |shows| && (forall i :: 0 <= i < |shows| ==> ShowFolderIn(p, base, shows[i], folders[i]))
            && Supplied(old(ws.Snapshot()), ws.Snapshot(), RunFiles(p, shows, folders)))
      && ws.progress == (if current == 0 then old(ws.progress) else current)
      && Grown(old(ws.Snapshot()), ws.Snapshot(), base, RunUrls(shows))
    ensures old(ws.log) <= ws.log
    ensures Authed(old(s.token), old(s.logins), s.token, s.logins, login)
  {
    current, folders := 0, [];
    match doc
    case Unparsable(error) =>
      ws.Log(ParseFailed(error));
      return Returned, current, folders;
    case NotAMapping =>
      return Raised(Failure.NotAMapping), current, folders;
    case Mapping(shows) =>
      outcome, current, folders := ProcessShows(ws, s, login, base, p, shows);
  }
}
