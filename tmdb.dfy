/** The TMDb downloader, mediux_titlecards_gui.py: look each show up on
    TMDb by its TVDB id, then lay out show, season and episode artwork
    under the destination folder. */
module Tmdb {
  import opened PyStr
  import opened Manifest
  import opened Naming
  import opened Env
  import opened Artwork

  datatype ShowRecord = ShowRecord(name: string, firstAirDate: string)

  datatype EpisodeRecord = EpisodeRecord(number: int, name: string)

  /** TMDb's answers, fixed for the length of a run. A key that is absent
      stands for a response that is not OK.
        find:    str(tvdb_id) -> id of the first "tv_results" entry
        shows:   tmdb id -> the series record
        seasons: (tmdb id, str(season key)) -> the season's "episodes" list */
  datatype Provider = Provider(
    find: map<string, int>,
    shows: map<int, ShowRecord>,
    seasons: map<(int, string), seq<EpisodeRecord>>)

  /** get_tmdb_id(tvdb_id) */
  function TmdbId(p: Provider, key: Key): Option<int> {
    if KeyStr(key) in p.find then Some(p.find[KeyStr(key)]) else None
  }

  /** get_show_info(tmdb_id): the name with colons replaced, and the first
      four characters of the first air date. */
  function ShowInfo(p: Provider, id: int): Option<(string, string)> {
    if id in p.shows then
      var rec := p.shows[id];
      Some((SanitizeTitle(rec.name), Take(rec.firstAirDate, 4)))
    else None
  }

  lemma ShowInfoSpec(p: Provider, id: int)
    ensures ShowInfo(p, id).None? <==> id !in p.shows
    ensures ShowInfo(p, id).Some? ==>
      var rec := p.shows[id];
      var (title, year) := ShowInfo(p, id).value;
      && title == SanitizeTitle(rec.name)
      && ':' !in title
      && |title| == |rec.name| + Count(rec.name, ':')
      && StartsWith(rec.firstAirDate, year)
      && |year| == (if |rec.firstAirDate| < 4 then |rec.firstAirDate| else 4)
  {
  }

  /** {str(ep["episode_number"]): ep["name"] for ep in episodes}: a later
      entry with the same number overwrites an earlier one. */
  function TitleIndex(eps: seq<EpisodeRecord>): (r: map<string, string>)
    ensures r.Keys == set e | e in eps :: IntToString(e.number)
  {
    if eps == [] then map[]
    else
      var last := eps[|eps| - 1];
      assert eps == eps[..|eps| - 1] + [last];
      TitleIndex(eps[..|eps| - 1])[IntToString(last.number) := last.name]
  }

  /** The title stored for an episode number is the name of the last
      record with that number. */
  lemma {:induction false} TitleIndexLastWins(eps: seq<EpisodeRecord>, i: int)
    requires 0 <= i < |eps|
    requires forall j :: i < j < |eps| ==> eps[j].number != eps[i].number
    ensures TitleIndex(eps)[IntToString(eps[i].number)] == eps[i].name
  {
    var n := |eps| - 1;
    var pre := eps[..n];
    if i < n {
      assert pre[i] == eps[i];
      forall j | i < j < |pre| ensures pre[j].number != pre[i].number {
        assert pre[j] == eps[j];
      }
      TitleIndexLastWins(pre, i);
      var k := IntToString(eps[i].number);
      assert IntToString(eps[n].number) != k by {
        if IntToString(eps[n].number) == k {
          IntToStringInjective(eps[n].number, eps[i].number);
        }
      }
    }
    assert TitleIndex(eps) == TitleIndex(pre)[IntToString(eps[n].number) := eps[n].name];
  }

  /** get_episode_titles(tmdb_id, season_num): nothing when the response is
      not OK, otherwise a title for exactly the numbers the season lists. */
  function EpisodeTitles(p: Provider, id: int, season: Key): (r: map<string, string>)
    ensures (id, KeyStr(season)) !in p.seasons ==> r == map[]
    ensures (id, KeyStr(season)) in p.seasons ==>
      r.Keys == set e | e in p.seasons[(id, KeyStr(season))] :: IntToString(e.number)
  {
    if (id, KeyStr(season)) in p.seasons then TitleIndex(p.seasons[(id, KeyStr(season))]) else map[]
  }

  /** A show the run can lay out: a non-zero TMDb id, a title and a year. */
  datatype Resolved = Resolved(id: int, title: string, year: string)

  /** The two lookups at the head of the show loop; None when either the id
      or the title/year check sends the loop on to the next show. */
  function Resolve(p: Provider, key: Key): Option<Resolved> {
    match TmdbId(p, key)
    case None => None
    case Some(id) =>
      if id == 0 then None
      else match ShowInfo(p, id)
        case None => None
        case Some((title, year)) =>
          if title == "" || year == "" then None else Some(Resolved(id, title, year))
  }

  /** A show resolves exactly when TMDb knows a non-zero id for its TVDB
      id and a series record for that id with a non-empty name and air
      date; the folder title then has no colon and the year at most four
      characters. */
  lemma ResolveSpec(p: Provider, key: Key)
    ensures Resolve(p, key).Some? <==>
      && KeyStr(key) in p.find && p.find[KeyStr(key)] != 0
      && p.find[KeyStr(key)] in p.shows
      && p.shows[p.find[KeyStr(key)]].name != ""
      && p.shows[p.find[KeyStr(key)]].firstAirDate != ""
    ensures Resolve(p, key).Some? ==>
      var r := Resolve(p, key).value;
      && r.id == p.find[KeyStr(key)]
      && ':' !in r.title && StartsWith(p.shows[r.id].firstAirDate, r.year) && |r.year| <= 4
  {
    if KeyStr(key) in p.find && p.find[KeyStr(key)] in p.shows {
      var rec := p.shows[p.find[KeyStr(key)]];
      ShowInfoSpec(p, p.find[KeyStr(key)]);
      assert |SanitizeTitle(rec.name)| >= |rec.name|;
    }
  }

  /** The log line for a show the loop skips. */
  function SkipEvent(p: Provider, key: Key): Event {
    match TmdbId(p, key)
    case None => IdNotFound(KeyStr(key))
    case Some(id) => if id == 0 then IdNotFound(KeyStr(key)) else NoTitleYear(KeyStr(key))
  }

  /** "Specials" if str(season_num) == "0" else f"Season {int(season_num):02}";
      None stands for the ValueError of int(). */
  function SeasonFolderName(season: Key): (r: Option<string>)
    ensures r.None? <==> KeyInt(season).None?
  {
    if KeyStr(season) == "0" then
      SpecialsKeyIsZero(season);
      Some("Specials")
    else match KeyInt(season)
      case Some(n) => Some("Season " + Pad2(n))
      case None => None
  }

  /** The season folder is "Specials" exactly for the key that prints as "0". */
  lemma SeasonFolderSpecials(season: Key)
    ensures SeasonFolderName(season) == Some("Specials") <==> KeyStr(season) == "0"
  {
    if KeyStr(season) != "0" && KeyInt(season).Some? {
      NotSpecials(Pad2(KeyInt(season).value));
    }
  }

  /** Any other key gives "Season " and the key's value as a sign or digit
      followed by digits, zero-padded to two characters and otherwise as
      wide as str() writes it. */
  lemma SeasonFolderNumbered(season: Key)
    requires KeyStr(season) != "0" && KeyInt(season).Some?
    ensures var n := KeyInt(season).value;
      exists d :: && SeasonFolderName(season) == Some("Season " + d)
                  && |d| >= 2 && ParseInt(d) == Some(n)
                  && (d[0] == '-' || IsDigit(d[0])) && AllDigits(d[1..])
                  && |d| == if 0 <= n < 10 then 2 else |IntToString(n)|
  {
    var n := KeyInt(season).value;
    var d := Pad2(n);
    Pad2RoundTrip(n);
    Pad2Shape(n);
    assert SeasonFolderName(season) == Some("Season " + d);
  }

  // ---------------------------------------------------------------------
  // Counting: progress_max is set to the episode entries of the whole
  // manifest, but a skipped show never advances the count.

  /** Whether the show loop lays a show out rather than skipping it. */
  function Resolves(p: Provider): Key -> bool {
    k => Resolve(p, k).Some?
  }

  // ---------------------------------------------------------------------
  // What a run may create: the directories and files planned for each
  // entry of the manifest.

  function ShowDir(base: Path, r: Resolved): Path {
    Join(base, ShowFolderName(r.title, r.year))
  }

  /** A season's folder, then its poster, then its cards; nothing for a
      season whose key int() rejects. */
  ghost function SeasonPlan(p: Provider, r: Resolved, showDir: Path, season: SeasonEntry): Plan {
    match SeasonFolderName(season.key)
    case None => Plan({}, {}, {})
    case Some(name) =>
      var dir := Join(showDir, name);
      Then(SeasonFolderPlan(dir, season), CardsPlan(dir, r.title, r.year, season, EpisodeTitles(p, r.id, season.key)))
  }

  /** Every season's folder, poster and cards, season by season. */
  ghost function SeasonsPlan(p: Provider, r: Resolved, showDir: Path, seasons: seq<SeasonEntry>): Plan {
    if seasons == [] then Plan({}, {}, {})
    else Then(SeasonsPlan(p, r, showDir, seasons[..|seasons| - 1]), SeasonPlan(p, r, showDir, seasons[|seasons| - 1]))
  }

  ghost function ShowArtFiles(dir: Path, show: ShowEntry): set<Path> {
    ArtFile(dir, "poster", show.urlPoster) + ArtFile(dir, "background", show.urlBackground)
  }

  ghost function ShowArtPlan(dir: Path, show: ShowEntry): Plan {
    Plan({}, ShowArtFiles(dir, show), UrlOf(show.urlPoster) + UrlOf(show.urlBackground))
  }

  /** The show folder and its artwork. */
  ghost function ShowFolderPlan(dir: Path, show: ShowEntry): Plan {
    Plan(Ancestry(dir), ShowArtFiles(dir, show), UrlOf(show.urlPoster) + UrlOf(show.urlBackground))
  }

  /** The plan of a show that resolved to `r`: the show folder and its
      artwork, then every season's folder, poster and cards. */
  ghost function LayoutPlan(p: Provider, base: Path, r: Resolved, show: ShowEntry): Plan {
    var dir := ShowDir(base, r);
    Then(ShowFolderPlan(dir, show), SeasonsPlan(p, r, dir, show.seasons))
  }

  /** A show that does not resolve plans nothing. */
  ghost function ShowPlan(p: Provider, base: Path, show: ShowEntry): Plan {
    match Resolve(p, show.key)
    case None => Plan({}, {}, {})
    case Some(r) => LayoutPlan(p, base, r, show)
  }

  /** Every show's plan, show by show. */
  ghost function RunPlan(p: Provider, base: Path, shows: seq<ShowEntry>): Plan {
    if shows == [] then Plan({}, {}, {})
    else Then(RunPlan(p, base, shows[..|shows| - 1]), ShowPlan(p, base, shows[|shows| - 1]))
  }

  lemma {:induction false} SeasonsPlanPrefix(p: Provider, r: Resolved, dir: Path, seasons: seq<SeasonEntry>, k: int)
    requires 0 <= k <= |seasons|
    ensures Within(SeasonsPlan(p, r, dir, seasons[..k]), SeasonsPlan(p, r, dir, seasons))
    decreases |seasons|
  {
    if k < |seasons| {
      var pre := seasons[..|seasons| - 1];
      assert pre[..k] == seasons[..k];
      SeasonsPlanPrefix(p, r, dir, pre, k);
    } else {
      assert seasons[..k] == seasons;
    }
  }

  lemma {:induction false} RunPlanPrefix(p: Provider, base: Path, shows: seq<ShowEntry>, k: int)
    requires 0 <= k <= |shows|
    ensures Within(RunPlan(p, base, shows[..k]), RunPlan(p, base, shows))
    decreases |shows|
  {
    if k < |shows| {
      var pre := shows[..|shows| - 1];
      assert pre[..k] == shows[..k];
      RunPlanPrefix(p, base, pre, k);
    } else {
      assert shows[..k] == shows;
    }
  }

  /** The seasons plan downloads only URLs the seasons name. */
  lemma {:induction false} SeasonsPlanUrls(p: Provider, r: Resolved, dir: Path, seasons: seq<SeasonEntry>)
    ensures SeasonsPlan(p, r, dir, seasons).urls <= SeasonsUrls(seasons)
  {
    if seasons != [] {
      var pre := seasons[..|seasons| - 1];
      SeasonsPlanUrls(p, r, dir, pre);
      SeasonsUrlsLast(seasons);
    }
  }

  /** A run downloads only URLs the manifest names. */
  lemma {:induction false} RunPlanUrls(p: Provider, base: Path, shows: seq<ShowEntry>)
    ensures RunPlan(p, base, shows).urls <= ManifestUrls(shows)
  {
    if shows != [] {
      var pre := shows[..|shows| - 1];
      var last := shows[|shows| - 1];
      RunPlanUrls(p, base, pre);
      ManifestUrlsLast(shows);
      match Resolve(p, last.key)
      case None =>
      case Some(r) => SeasonsPlanUrls(p, r, ShowDir(base, r), last.seasons);
    }
  }

  /** The download ArtFile's file gets when it is not among `files`: from
      its own URL, to that file. */
  function MissingArt(dir: Path, stem: string, url: Option<string>, files: set<Path>): Option<Fetch> {
    if Truthy(url) && Join(dir, stem + ArtExtension(url.value)) !in files
    then Some(Fetch(url.value, Join(dir, stem + ArtExtension(url.value)), false))
    else None
  }

  function Listed<T>(o: Option<T>): seq<T> {
    if o.Some? then [o.value] else []
  }

  /** The "Downloaded …" line of the show artwork download `m`, if there
      is one. */
  function ArtLogged(m: Option<Fetch>, stem: string): seq<Event> {
    if m.None? then []
    else if stem == "poster" then [ShowPosterFetched(m.value.dest)]
    else [BackgroundFetched(m.value.dest)]
  }

  /** A show's poster and background never share a file. */
  lemma ArtNamesDiffer(dir: Path, poster: string, background: string)
    ensures Join(dir, "poster" + ArtExtension(poster)) != Join(dir, "background" + ArtExtension(background))
  {
    var q, b := "poster" + ArtExtension(poster), "background" + ArtExtension(background);
    assert q[0] != b[0];
    assert Join(dir, q)[|dir|] == q;
  }

  /** One artwork file of the show (`stem` is "poster" or "background"),
      downloaded from its own URL when the URL is set and the file is
      missing. */
  method FetchArt(ws: Workspace, dir: Path, stem: string, url: Option<string>)
    modifies ws
    ensures ws.dirs == old(ws.dirs) && ws.progress == old(ws.progress) && ws.progressMax == old(ws.progressMax)
    ensures ws.fetches == old(ws.fetches) + Listed(MissingArt(dir, stem, url, old(ws.files)))
    ensures ws.log == old(ws.log) + ArtLogged(MissingArt(dir, stem, url, old(ws.files)), stem)
    ensures Confined(old(ws.Snapshot()), ws.Snapshot(), Plan({}, ArtFile(dir, stem, url), UrlOf(url)))
    ensures Supplied(old(ws.Snapshot()), ws.Snapshot(), ArtFile(dir, stem, url))
  {
    if Truthy(url) {
      var dest := Join(dir, stem + ArtExtension(url.value));
      var e := if stem == "poster" then ShowPosterFetched(dest) else BackgroundFetched(dest);
      FetchIfAbsent(ws, url.value, dest, e);
    } else {
      TracedStill(ws.Snapshot(), ws.Snapshot());
      assert ws.fetches[..|ws.fetches|] == ws.fetches;
    }
  }

  /** The show poster and background, each unless already there. */
  method FetchShowArt(ws: Workspace, dir: Path, show: ShowEntry)
    modifies ws
    ensures ws.progress == old(ws.progress) && ws.progressMax == old(ws.progressMax)
    ensures Confined(old(ws.Snapshot()), ws.Snapshot(), ShowArtPlan(dir, show))
    ensures Supplied(old(ws.Snapshot()), ws.Snapshot(), ShowArtFiles(dir, show))
    ensures var poster := MissingArt(dir, "poster", show.urlPoster, old(ws.files));
      var background := MissingArt(dir, "background", show.urlBackground, old(ws.files));
      && ws.fetches == old(ws.fetches) + Listed(poster) + Listed(background)
      && ws.log == old(ws.log) + ArtLogged(poster, "poster") + ArtLogged(background, "background")
    ensures old(ws.log) <= ws.log
  {
    ghost var t0 := ws.Snapshot();
    FetchArt(ws, dir, "poster", show.urlPoster);
    ghost var t1 := ws.Snapshot();
    if Truthy(show.urlPoster) && Truthy(show.urlBackground) {
      ArtNamesDiffer(dir, show.urlPoster.value, show.urlBackground.value);
    }
    assert MissingArt(dir, "background", show.urlBackground, ws.files)
        == MissingArt(dir, "background", show.urlBackground, old(ws.files));
    FetchArt(ws, dir, "background", show.urlBackground);
    ConfinedThen(t0, t1, ws.Snapshot(), Plan({}, ArtFile(dir, "poster", show.urlPoster), UrlOf(show.urlPoster)),
                 Plan({}, ArtFile(dir, "background", show.urlBackground), UrlOf(show.urlBackground)));
    assert Then(Plan({}, ArtFile(dir, "poster", show.urlPoster), UrlOf(show.urlPoster)),
                Plan({}, ArtFile(dir, "background", show.urlBackground), UrlOf(show.urlBackground))) == ShowArtPlan(dir, show);
    SuppliedThen(t0, t1, ws.Snapshot(), ArtFile(dir, "poster", show.urlPoster), ArtFile(dir, "background", show.urlBackground));
  }

  /** One pass of the season loop (lines 142-175). */
  method ProcessSeason(ws: Workspace, p: Provider, r: Resolved, showDir: Path, season: SeasonEntry, current: int)
    returns (outcome: Outcome, next: int)
    modifies ws
    ensures ws.progressMax == old(ws.progressMax)
    ensures current <= next <= current + |season.episodes|
    ensures outcome.Raised? ==> outcome.failure == ValueError
    ensures KeyInt(season.key).None? ==> outcome.Raised? && next == current && ws.log == old(ws.log)
    ensures outcome.Returned? ==> next == current + |season.episodes| && SeasonPlan(p, r, showDir, season).dirs <= ws.dirs
    ensures ws.progress == if next == current then old(ws.progress) else next
    ensures Confined(old(ws.Snapshot()), ws.Snapshot(), SeasonPlan(p, r, showDir, season))
    ensures outcome.Returned? ==> Supplied(old(ws.Snapshot()), ws.Snapshot(), SeasonPlan(p, r, showDir, season).files)
    ensures old(ws.log) <= ws.log
  {
    ghost var t0 := ws.Snapshot();
    var name := SeasonFolderName(season.key);
    if name.None? {
      return Raised(ValueError), current;
    }
    var dir := Join(showDir, name.value);
    MakeSeasonFolder(ws, dir, season);
    ghost var t2 := ws.Snapshot();
    var titles := EpisodeTitles(p, r.id, season.key);
    outcome, next := ProcessEpisodes(ws, dir, r.title, r.year, season.key, titles, season.episodes, current);
    ConfinedThen(t0, t2, ws.Snapshot(), SeasonFolderPlan(dir, season), CardsPlan(dir, r.title, r.year, season, titles));
    if outcome.Returned? {
      SuppliedThen(t0, t2, ws.Snapshot(), SeasonFolderPlan(dir, season).files, CardsPlan(dir, r.title, r.year, season, titles).files);
    }
  }

  /** One more season of a show: its plan joins the plans of the seasons
      before it, inside the plan of all the show's seasons. */
  lemma SeasonsStep(p: Provider, r: Resolved, dir: Path, seasons: seq<SeasonEntry>, i: int, a: Tree, b: Tree, c: Tree)
    requires 0 <= i < |seasons|
    requires Confined(a, b, SeasonsPlan(p, r, dir, seasons[..i])) && Confined(b, c, SeasonPlan(p, r, dir, seasons[i]))
    ensures Confined(a, c, SeasonsPlan(p, r, dir, seasons[..i + 1])) && Confined(a, c, SeasonsPlan(p, r, dir, seasons))
    ensures SeasonsPlan(p, r, dir, seasons[..i]).dirs <= b.dirs && SeasonPlan(p, r, dir, seasons[i]).dirs <= c.dirs ==>
              SeasonsPlan(p, r, dir, seasons[..i + 1]).dirs <= c.dirs
    ensures Supplied(a, b, SeasonsPlan(p, r, dir, seasons[..i]).files) && Supplied(b, c, SeasonPlan(p, r, dir, seasons[i]).files) ==>
              Supplied(a, c, SeasonsPlan(p, r, dir, seasons[..i + 1]).files)
    ensures SeasonsEpisodes(seasons[..i + 1]) == SeasonsEpisodes(seasons[..i]) + |seasons[i].episodes|
    ensures SeasonsEpisodes(seasons[..i + 1]) <= SeasonsEpisodes(seasons)
  {
    assert seasons[..i + 1][..i] == seasons[..i];
    if Supplied(a, b, SeasonsPlan(p, r, dir, seasons[..i]).files) && Supplied(b, c, SeasonPlan(p, r, dir, seasons[i]).files) {
      SuppliedThen(a, b, c, SeasonsPlan(p, r, dir, seasons[..i]).files, SeasonPlan(p, r, dir, seasons[i]).files);
    }
    ConfinedThen(a, b, c, SeasonsPlan(p, r, dir, seasons[..i]), SeasonPlan(p, r, dir, seasons[i]));
    SeasonsEpisodesPrefix(seasons, i + 1);
    SeasonsPlanPrefix(p, r, dir, seasons, i + 1);
    ConfinedWiden(a, c, SeasonsPlan(p, r, dir, seasons[..i + 1]), SeasonsPlan(p, r, dir, seasons));
  }

  /** The season loop of one show (lines 142-175): it stops at the first
      season that raises. */
  method ProcessSeasons(ws: Workspace, p: Provider, r: Resolved, dir: Path, seasons: seq<SeasonEntry>, current: int)
    returns (outcome: Outcome, next: int)
    modifies ws
    ensures ws.progressMax == old(ws.progressMax)
    ensures current <= next <= current + SeasonsEpisodes(seasons)
    ensures outcome.Raised? ==> outcome.failure == ValueError
    ensures outcome.Returned? ==> next == current + SeasonsEpisodes(seasons) && SeasonsPlan(p, r, dir, seasons).dirs <= ws.dirs
    ensures ws.progress == if next == current then old(ws.progress) else next
    ensures Confined(old(ws.Snapshot()), ws.Snapshot(), SeasonsPlan(p, r, dir, seasons))
    ensures outcome.Returned? ==> Supplied(old(ws.Snapshot()), ws.Snapshot(), SeasonsPlan(p, r, dir, seasons).files)
    ensures old(ws.log) <= ws.log
  {
    ghost var t0, log0, progress0 := ws.Snapshot(), ws.log, ws.progress;
    next := current;
    var i := 0;
    while i < |seasons|
      invariant 0 <= i <= |seasons|
      invariant next == current + SeasonsEpisodes(seasons[..i])
      invariant ws.progressMax == old(ws.progressMax)
      invariant ws.progress == if next == current then progress0 else next
      invariant SeasonsPlan(p, r, dir, seasons[..i]).dirs <= ws.dirs
      invariant Confined(t0, ws.Snapshot(), SeasonsPlan(p, r, dir, seasons[..i]))
      invariant Supplied(t0, ws.Snapshot(), SeasonsPlan(p, r, dir, seasons[..i]).files)
      invariant log0 <= ws.log
    {
      ghost var before := ws.Snapshot();
      var o, n := ProcessSeason(ws, p, r, dir, seasons[i], next);
      SeasonsStep(p, r, dir, seasons, i, t0, before, ws.Snapshot());
      if o.Raised? {
        return o, n;
      }
      next := n;
      i := i + 1;
    }
    assert seasons[..i] == seasons;
    outcome := Returned;
  }

  /** Lines 124-177 for a show that resolved: its folder, its artwork,
      its seasons, then the "Finished processing" line. */
  method LayOutShow(ws: Workspace, p: Provider, base: Path, r: Resolved, show: ShowEntry, current: int)
    returns (outcome: Outcome, next: int)
    modifies ws
    ensures ws.progressMax == old(ws.progressMax)
    ensures current <= next <= current + SeasonsEpisodes(show.seasons)
    ensures outcome.Raised? ==> outcome.failure == ValueError
    ensures outcome.Returned? ==>
      && next == current + SeasonsEpisodes(show.seasons)
      && LayoutPlan(p, base, r, show).dirs <= ws.dirs
      && LastLogged(ws.log, ShowFinished(ShowFolderName(r.title, r.year)))
    ensures ws.progress == if next == current then old(ws.progress) else next
    ensures Confined(old(ws.Snapshot()), ws.Snapshot(), LayoutPlan(p, base, r, show))
    ensures outcome.Returned? ==> Supplied(old(ws.Snapshot()), ws.Snapshot(), LayoutPlan(p, base, r, show).files)
    ensures old(ws.log) <= ws.log
  {
    ghost var t0 := ws.Snapshot();
    var dir := MakeShowFolder(ws, base, r, show);
    ghost var t1 := ws.Snapshot();
    outcome, next := ProcessSeasons(ws, p, r, dir, show.seasons, current);
    ConfinedThen(t0, t1, ws.Snapshot(), ShowFolderPlan(dir, show), SeasonsPlan(p, r, dir, show.seasons));
    if outcome.Returned? {
      SuppliedThen(t0, t1, ws.Snapshot(), ShowFolderPlan(dir, show).files, SeasonsPlan(p, r, dir, show.seasons).files);
    }
    if outcome.Returned? {
      ws.Log(ShowFinished(ShowFolderName(r.title, r.year)));
    }
  }

  /** Lines 124-139: the show folder, then its poster and background. */
  method MakeShowFolder(ws: Workspace, base: Path, r: Resolved, show: ShowEntry) returns (dir: Path)
    modifies ws
    ensures dir == ShowDir(base, r)
    ensures ws.progress == old(ws.progress) && ws.progressMax == old(ws.progressMax)
    ensures Ancestry(dir) <= ws.dirs
    ensures Confined(old(ws.Snapshot()), ws.Snapshot(), ShowFolderPlan(dir, show))
    ensures Supplied(old(ws.Snapshot()), ws.Snapshot(), ShowFolderPlan(dir, show).files)
    ensures old(ws.log) <= ws.log
  {
    ghost var t0 := ws.Snapshot();
    dir := Join(base, ShowFolderName(r.title, r.year));
    ws.MakeDirs(dir);
    ghost var t1 := ws.Snapshot();
    TracedStill(t0, t1);
    FetchShowArt(ws, dir, show);
    SuppliedLater(t0, t1, ws.Snapshot(), ShowArtFiles(dir, show));
    ConfinedChain(t0, t1, ws.Snapshot(), ShowFolderPlan(dir, show), ShowArtPlan(dir, show));
  }

  /** One pass of the show loop (lines 113-177). A show whose lookups fail
      is logged and skipped without touching anything else. */
  method ProcessShow(ws: Workspace, p: Provider, base: Path, show: ShowEntry, current: int)
    returns (outcome: Outcome, next: int)
    modifies ws
    ensures ws.progressMax == old(ws.progressMax)
    ensures Resolve(p, show.key).None? ==>
      && outcome == Returned && next == current
      && ws.log == old(ws.log) + [SkipEvent(p, show.key)]
      && ws.dirs == old(ws.dirs) && ws.files == old(ws.files) && ws.fetches == old(ws.fetches)
      && ws.progress == old(ws.progress)
    ensures current <= next <= current + ShowCount(Resolves(p), show)
    ensures outcome.Raised? ==> outcome.failure == ValueError
    ensures outcome.Returned? ==> next == current + ShowCount(Resolves(p), show) && ShowPlan(p, base, show).dirs <= ws.dirs
    ensures outcome.Returned? && Resolve(p, show.key).Some? ==>
      var r := Resolve(p, show.key).value;
      LastLogged(ws.log, ShowFinished(ShowFolderName(r.title, r.year)))
    ensures ws.progress == if next == current then old(ws.progress) else next
    ensures Confined(old(ws.Snapshot()), ws.Snapshot(), ShowPlan(p, base, show))
    ensures outcome.Returned? ==> Supplied(old(ws.Snapshot()), ws.Snapshot(), ShowPlan(p, base, show).files)
    ensures old(ws.log) <= ws.log
  {
    var resolved := Resolve(p, show.key);
    if resolved.None? {
      ws.Log(SkipEvent(p, show.key));
      return Returned, current;
    }
    outcome, next := LayOutShow(ws, p, base, resolved.value, show, current);
  }

  /** process_yaml (lines 98-179). A parse error is logged and ends the
      run; a document that is not a mapping raises before anything is
      touched. Otherwise the bar's maximum is the manifest's episode total,
      the count never passes what the resolvable shows hold, every download
      goes to a destination that was not there yet for a URL the manifest
      names, nothing is created outside the plan, and a second run over a
      tree that already holds the plan downloads and creates nothing. */
  method ProcessYaml(ws: Workspace, doc: Document, base: Path, p: Provider)
    returns (outcome: Outcome, current: int)
    modifies ws
    ensures doc.Unparsable? ==>
      && outcome == Returned
      && ws.log == old(ws.log) + [ParseFailed(doc.error)]
      && ws.dirs == old(ws.dirs) && ws.files == old(ws.files) && ws.fetches == old(ws.fetches)
      && ws.progress == old(ws.progress) && ws.progressMax == old(ws.progressMax)
    ensures doc.NotAMapping? ==>
      && outcome == Raised(Failure.NotAMapping)
      && ws.log == old(ws.log)
      && ws.dirs == old(ws.dirs) && ws.files == old(ws.files) && ws.fetches == old(ws.fetches)
      && ws.progress == old(ws.progress) && ws.progressMax == old(ws.progressMax)
    ensures doc.Mapping? ==>
      var shows := doc.shows;
      && ws.progressMax == Total(shows)
      && 0 <= current <= Counted(Resolves(p), shows) <= Total(shows)
      && (outcome.Raised? ==> outcome.failure == ValueError)
      && (outcome.Returned? ==>
            && current == Counted(Resolves(p), shows)
            && RunPlan(p, base, shows).dirs <= ws.dirs
            && Supplied(old(ws.Snapshot()), ws.Snapshot(), RunPlan(p, base, shows).files)
            && LastLogged(ws.log, AllDone))
      && ws.progress == (if current == 0 then old(ws.progress) else current)
      && Confined(old(ws.Snapshot()), ws.Snapshot(), RunPlan(p, base, shows))
      && FreshFetches(old(ws.fetches), ws.fetches, ManifestUrls(shows))
    ensures old(ws.log) <= ws.log
  {
    current := 0;
    match doc
    case Unparsable(error) =>
      ws.Log(ParseFailed(error));
      return Returned, current;
    case NotAMapping =>
      return Raised(Failure.NotAMapping), current;
    case Mapping(shows) =>
      outcome, current := ProcessShows(ws, base, p, shows);
      RunPlanUrls(p, base, shows);
  }

  /** One more show of the run: its plan joins the plans of the shows
      before it, inside the plan of the whole run. */
  lemma RunStep(p: Provider, base: Path, shows: seq<ShowEntry>, i: int, a: Tree, b: Tree, c: Tree)
    requires 0 <= i < |shows|
    requires Confined(a, b, RunPlan(p, base, shows[..i])) && Confined(b, c, ShowPlan(p, base, shows[i]))
    ensures Confined(a, c, RunPlan(p, base, shows[..i + 1])) && Confined(a, c, RunPlan(p, base, shows))
    ensures RunPlan(p, base, shows[..i]).dirs <= b.dirs && ShowPlan(p, base, shows[i]).dirs <= c.dirs ==>
              RunPlan(p, base, shows[..i + 1]).dirs <= c.dirs
    ensures Supplied(a, b, RunPlan(p, base, shows[..i]).files) && Supplied(b, c, ShowPlan(p, base, shows[i]).files) ==>
              Supplied(a, c, RunPlan(p, base, shows[..i + 1]).files)
    ensures Counted(Resolves(p), shows[..i + 1]) == Counted(Resolves(p), shows[..i]) + ShowCount(Resolves(p), shows[i])
    ensures Counted(Resolves(p), shows[..i + 1]) <= Counted(Resolves(p), shows)
  {
    assert shows[..i + 1][..i] == shows[..i];
    if Supplied(a, b, RunPlan(p, base, shows[..i]).files) && Supplied(b, c, ShowPlan(p, base, shows[i]).files) {
      SuppliedThen(a, b, c, RunPlan(p, base, shows[..i]).files, ShowPlan(p, base, shows[i]).files);
    }
    ConfinedThen(a, b, c, RunPlan(p, base, shows[..i]), ShowPlan(p, base, shows[i]));
    CountedPrefix(Resolves(p), shows, i + 1);
    RunPlanPrefix(p, base, shows, i + 1);
    ConfinedWiden(a, c, RunPlan(p, base, shows[..i + 1]), RunPlan(p, base, shows));
  }

  /** Show `i` of the run, after the shows before it: what the loop of
      process_yaml needs to know about one of its passes. */
  method ProcessShowOf(ws: Workspace, p: Provider, base: Path, shows: seq<ShowEntry>, i: int, current: int, ghost tree0: Tree)
    returns (outcome: Outcome, next: int)
    requires 0 <= i < |shows|
    requires Confined(tree0, ws.Snapshot(), RunPlan(p, base, shows[..i]))
    modifies ws
    ensures ws.progressMax == old(ws.progressMax)
    ensures current <= next
    ensures outcome.Raised? ==> outcome.failure == ValueError
    ensures outcome.Raised? ==>
      next - current <= Counted(Resolves(p), shows) - Counted(Resolves(p), shows[..i])
      && Confined(tree0, ws.Snapshot(), RunPlan(p, base, shows))
    ensures outcome.Returned? ==>
      && next - current == Counted(Resolves(p), shows[..i + 1]) - Counted(Resolves(p), shows[..i])
      && Counted(Resolves(p), shows[..i + 1]) <= Counted(Resolves(p), shows)
      && (RunPlan(p, base, shows[..i]).dirs <= old(ws.dirs) ==> RunPlan(p, base, shows[..i + 1]).dirs <= ws.dirs)
      && (Supplied(tree0, old(ws.Snapshot()), RunPlan(p, base, shows[..i]).files) ==>
            Supplied(tree0, ws.Snapshot(), RunPlan(p, base, shows[..i + 1]).files))
      && Confined(tree0, ws.Snapshot(), RunPlan(p, base, shows[..i + 1]))
    ensures ws.progress == if next == current then old(ws.progress) else next
    ensures old(ws.log) <= ws.log
  {
    ghost var before := ws.Snapshot();
    outcome, next := ProcessShow(ws, p, base, shows[i], current);
    RunStep(p, base, shows, i, tree0, before, ws.Snapshot());
  }

  /** The body of process_yaml for a manifest that is a mapping
      (lines 105-179). */
  method ProcessShows(ws: Workspace, base: Path, p: Provider, shows: seq<ShowEntry>)
    returns (outcome: Outcome, current: int)
    modifies ws
    ensures ws.progressMax == Total(shows)
    ensures 0 <= current <= Counted(Resolves(p), shows) <= Total(shows)
    ensures outcome.Raised? ==> outcome.failure == ValueError
    ensures outcome.Returned? ==>
      && current == Counted(Resolves(p), shows)
      && RunPlan(p, base, shows).dirs <= ws.dirs
      && Supplied(old(ws.Snapshot()), ws.Snapshot(), RunPlan(p, base, shows).files)
      && LastLogged(ws.log, AllDone)
    ensures ws.progress == if current == 0 then old(ws.progress) else current
    ensures Confined(old(ws.Snapshot()), ws.Snapshot(), RunPlan(p, base, shows))
    ensures old(ws.log) <= ws.log
  {
    ghost var tree0, log0, progress0 := ws.Snapshot(), ws.log, ws.progress;
    CountedAtMostTotal(Resolves(p), shows);
    ws.SetProgressMax(Total(shows));
    current := 0;
    var i := 0;
    while i < |shows|
      invariant 0 <= i <= |shows|
      invariant current == Counted(Resolves(p), shows[..i])
      invariant ws.progressMax == Total(shows)
      invariant ws.progress == if current == 0 then progress0 else current
      invariant RunPlan(p, base, shows[..i]).dirs <= ws.dirs
      invariant Confined(tree0, ws.Snapshot(), RunPlan(p, base, shows[..i]))
      invariant Supplied(tree0, ws.Snapshot(), RunPlan(p, base, shows[..i]).files)
      invariant log0 <= ws.log
    {
      var o, n := ProcessShowOf(ws, p, base, shows, i, current, tree0);
      if o.Raised? {
        return o, n;
      }
      current := n;
      i := i + 1;
    }
    assert shows[..i] == shows;
    ws.Log(AllDone);
    outcome := Returned;
  }
}
