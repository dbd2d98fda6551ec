/** The per-item steps both downloaders run the same way: fetch one piece
    of artwork unless it is already there, and process one episode entry
    (mediux_titlecards_gui.py:157-175, mediux_titlecards_tvdb.py:167-185). */
module Artwork {
  import opened PyStr
  import opened Manifest
  import opened Naming
  import opened Env

  /** episode_titles.get(str(episode_num)) */
  function EpisodeTitle(titles: map<string, string>, ep: EpisodeEntry): Option<string> {
    if KeyStr(ep.key) in titles then Some(titles[KeyStr(ep.key)]) else None
  }

  /** What the episode loop does with one entry: count it and move on
      (no URL or no title), raise (a key int() rejects), or put the card
      at `filename` in the season folder. */
  datatype EpisodePlan = Skip | Fails | Card(url: string, filename: string)

  function PlanEpisode(title: string, year: string, season: Key, titles: map<string, string>, ep: EpisodeEntry): (r: EpisodePlan)
    ensures r.Card? ==> Truthy(ep.urlPoster) && r.url == ep.urlPoster.value
    ensures r.Card? ==> EpisodeTitle(titles, ep).Some?
                        && EpisodeFileName(title, year, season, ep.key, EpisodeTitle(titles, ep).value) == Some(r.filename)
    ensures r.Skip? <==> !Truthy(ep.urlPoster) || !Truthy(EpisodeTitle(titles, ep))
    ensures r.Fails? <==> !r.Skip? && (KeyInt(season).None? || KeyInt(ep.key).None?)
  {
    var t := EpisodeTitle(titles, ep);
    if !Truthy(ep.urlPoster) || !Truthy(t) then Skip
    else match EpisodeFileName(title, year, season, ep.key, t.value)
      case None => Fails
      case Some(f) => Card(ep.urlPoster.value, f)
  }

  /** The episode loop gets past `ep` without a ValueError. */
  predicate Converts(title: string, year: string, season: Key, titles: map<string, string>, ep: EpisodeEntry) {
    !PlanEpisode(title, year, season, titles, ep).Fails?
  }

  /** Every entry of `eps` gets past the episode loop. */
  function AllConvert(title: string, year: string, season: Key, titles: map<string, string>, eps: seq<EpisodeEntry>): bool {
    eps == [] || (AllConvert(title, year, season, titles, eps[..|eps| - 1]) && Converts(title, year, season, titles, eps[|eps| - 1]))
  }

  lemma {:induction false} AllConvertPrefix(title: string, year: string, season: Key, titles: map<string, string>,
                                            eps: seq<EpisodeEntry>, k: int)
    requires 0 <= k <= |eps|
    ensures AllConvert(title, year, season, titles, eps) ==> AllConvert(title, year, season, titles, eps[..k])
    decreases |eps|
  {
    if k < |eps| {
      assert eps[..|eps| - 1][..k] == eps[..k];
      AllConvertPrefix(title, year, season, titles, eps[..|eps| - 1], k);
    } else {
      assert eps[..k] == eps;
    }
  }

  /** One more entry: the loop gets past `eps[..i + 1]` exactly when it
      gets past `eps[..i]` and `eps[i]` converts. */
  lemma AllConvertStep(title: string, year: string, season: Key, titles: map<string, string>,
                       eps: seq<EpisodeEntry>, i: int)
    requires 0 <= i < |eps|
    ensures AllConvert(title, year, season, titles, eps[..i + 1])
            <==> AllConvert(title, year, season, titles, eps[..i]) && Converts(title, year, season, titles, eps[i])
  {
    assert eps[..i + 1][..i] == eps[..i];
  }

  /** The loop gets through a season exactly when no entry of it raises. */
  lemma {:induction false} AllConvertIff(title: string, year: string, season: Key, titles: map<string, string>,
                                         eps: seq<EpisodeEntry>)
    ensures AllConvert(title, year, season, titles, eps) <==> forall e :: e in eps ==> Converts(title, year, season, titles, e)
  {
    if eps != [] {
      var pre := eps[..|eps| - 1];
      AllConvertIff(title, year, season, titles, pre);
      assert eps == pre + [eps[|eps| - 1]];
    }
  }

  /** The title cards a season's episode entries can produce in `dir`. */
  ghost function CardFiles(dir: Path, title: string, year: string, season: Key, titles: map<string, string>,
                           eps: seq<EpisodeEntry>): set<Path>
  {
    set e | e in eps && PlanEpisode(title, year, season, titles, e).Card?
      :: Join(dir, PlanEpisode(title, year, season, titles, e).filename)
  }

  /** Every card lies directly in the season folder. */
  lemma CardFilesUnder(dir: Path, title: string, year: string, season: Key, titles: map<string, string>,
                       eps: seq<EpisodeEntry>)
    ensures forall f :: f in CardFiles(dir, title, year, season, titles, eps) ==> Under(dir, 1, f)
  {
    forall f | f in CardFiles(dir, title, year, season, titles, eps) ensures Under(dir, 1, f) {
      var e :| e in eps && PlanEpisode(title, year, season, titles, e).Card?
               && f == Join(dir, PlanEpisode(title, year, season, titles, e).filename);
    }
  }

  /** One more entry adds its card to those of the entries before it. */
  lemma CardFilesStep(dir: Path, title: string, year: string, season: Key, titles: map<string, string>,
                      eps: seq<EpisodeEntry>, i: int)
    requires 0 <= i < |eps|
    ensures CardFiles(dir, title, year, season, titles, eps[..i + 1])
         == CardFiles(dir, title, year, season, titles, eps[..i]) + CardFile(dir, title, year, season, titles, eps[i])
  {
    assert forall e :: e in eps[..i + 1] <==> e in eps[..i] || e == eps[i] by {
      assert eps[..i + 1] == eps[..i] + [eps[i]];
    }
  }

  /** The title card one episode entry can produce in `dir`. */
  function CardFile(dir: Path, title: string, year: string, season: Key, titles: map<string, string>,
                    ep: EpisodeEntry): set<Path>
  {
    match PlanEpisode(title, year, season, titles, ep)
    case Card(_, f) => {Join(dir, f)}
    case _ => {}
  }

  /** Each entry's card is among the season's cards. */
  lemma CardInPlan(dir: Path, title: string, year: string, season: Key, titles: map<string, string>,
                   eps: seq<EpisodeEntry>, i: int)
    requires 0 <= i < |eps|
    ensures Within(Plan({}, CardFile(dir, title, year, season, titles, eps[i]), UrlOf(eps[i].urlPoster)),
                   Plan({}, CardFiles(dir, title, year, season, titles, eps), EpisodesUrls(eps)))
  {
    assert eps[i] in eps;
  }

  /** The show poster, background or season poster file for `url`, if it is set. */
  function ArtFile(dir: Path, stem: string, url: Option<string>): set<Path> {
    if Truthy(url) then {Join(dir, stem + ArtExtension(url.value))} else {}
  }

  /** Where a season's poster goes in `dir`, if the season has one. */
  function SeasonPosterFile(dir: Path, season: SeasonEntry): set<Path> {
    if Truthy(season.urlPoster) then
      match SeasonPosterName(season.key, ArtExtension(season.urlPoster.value))
      case Some(f) => {Join(dir, f)}
      case None => {}
    else {}
  }

  /** A season folder and its poster. */
  ghost function SeasonFolderPlan(dir: Path, season: SeasonEntry): Plan {
    Then(Plan(Ancestry(dir), {}, {}), Plan({}, SeasonPosterFile(dir, season), UrlOf(season.urlPoster)))
  }

  /** The title cards of a season's episodes in its folder `dir`. */
  ghost function CardsPlan(dir: Path, title: string, year: string, season: SeasonEntry, titles: map<string, string>): Plan {
    Plan({}, CardFiles(dir, title, year, season.key, titles, season.episodes), EpisodesUrls(season.episodes))
  }

  /** `if not os.path.isfile(dest): download_image(url, dest); log(...)` */
  method FetchIfAbsent(ws: Workspace, url: string, dest: Path, e: Event)
    modifies ws
    ensures ws.dirs == old(ws.dirs) && ws.progress == old(ws.progress) && ws.progressMax == old(ws.progressMax)
    ensures dest in old(ws.files) ==>
      ws.files == old(ws.files) && ws.fetches == old(ws.fetches) && ws.log == old(ws.log)
    ensures dest !in old(ws.files) ==>
      && ws.fetches == old(ws.fetches) + [Fetch(url, dest, false)]
      && ws.log == old(ws.log) + [e]
      && (ws.files == old(ws.files) || ws.files == old(ws.files) + {dest})
    ensures Traced(old(ws.Snapshot()), ws.Snapshot()) && Supplied(old(ws.Snapshot()), ws.Snapshot(), {dest})
  {
    ghost var t0 := ws.Snapshot();
    var present := ws.IsFile(dest);
    if !present {
      ws.Download(url, dest);
      ws.Log(e);
      TracedFetch(t0, ws.Snapshot(), url, dest);
    } else {
      TracedStill(t0, ws.Snapshot());
    }
  }

  /** The season poster, unless the file is already there. Its caller has
      already converted the season key with int() for the folder name. */
  method FetchSeasonPoster(ws: Workspace, dir: Path, season: SeasonEntry)
    requires KeyInt(season.key).Some?
    modifies ws
    ensures ws.progress == old(ws.progress) && ws.progressMax == old(ws.progressMax)
    ensures Confined(old(ws.Snapshot()), ws.Snapshot(), Plan({}, SeasonPosterFile(dir, season), UrlOf(season.urlPoster)))
    ensures forall f :: f in SeasonPosterFile(dir, season) && f !in old(ws.files) ==>
      ws.fetches == old(ws.fetches) + [Fetch(season.urlPoster.value, f, false)]
    ensures Supplied(old(ws.Snapshot()), ws.Snapshot(), SeasonPosterFile(dir, season))
    ensures SeasonPosterFile(dir, season) <= old(ws.files) ==> ws.log == old(ws.log)
    ensures forall f :: f in SeasonPosterFile(dir, season) && f !in old(ws.files) ==>
      ws.log == old(ws.log) + [SeasonPosterFetched(f)]
    ensures old(ws.log) <= ws.log
  {
    if Truthy(season.urlPoster) {
      var url := season.urlPoster.value;
      var ext := ArtExtension(url);
      SeasonPosterSpecials(season.key, ext);
      var dest := Join(dir, SeasonPosterName(season.key, ext).value);
      FetchIfAbsent(ws, url, dest, SeasonPosterFetched(dest));
    }
  }

  /** The season folder, then its poster (mediux_titlecards_gui.py:145-156,
      mediux_titlecards_tvdb.py:155-164). */
  method MakeSeasonFolder(ws: Workspace, dir: Path, season: SeasonEntry)
    requires KeyInt(season.key).Some?
    modifies ws
    ensures ws.progress == old(ws.progress) && ws.progressMax == old(ws.progressMax)
    ensures Ancestry(dir) <= ws.dirs
    ensures Confined(old(ws.Snapshot()), ws.Snapshot(), SeasonFolderPlan(dir, season))
    ensures Supplied(old(ws.Snapshot()), ws.Snapshot(), SeasonFolderPlan(dir, season).files)
    ensures old(ws.log) <= ws.log
  {
    ghost var t0 := ws.Snapshot();
    ws.MakeDirs(dir);
    ghost var t1 := ws.Snapshot();
    FetchSeasonPoster(ws, dir, season);
    ConfinedThen(t0, t1, ws.Snapshot(), Plan(Ancestry(dir), {}, {}), Plan({}, SeasonPosterFile(dir, season), UrlOf(season.urlPoster)));
  }

  /** One pass of the episode loop. Every path that does not raise counts
      the entry exactly once and shows the new count on the progress bar. */
  method ProcessEpisode(ws: Workspace, dir: Path, title: string, year: string, season: Key,
                        titles: map<string, string>, ep: EpisodeEntry, current: int)
    returns (outcome: Outcome, next: int)
    modifies ws
    ensures ws.dirs == old(ws.dirs) && ws.progressMax == old(ws.progressMax)
    ensures var plan := PlanEpisode(title, year, season, titles, ep);
      && (outcome.Raised? <==> plan.Fails?)
      && (outcome.Raised? ==>
            outcome.failure == ValueError && next == current
            && ws.progress == old(ws.progress) && ws.log == old(ws.log))
      && (outcome.Returned? ==> next == current + 1 && ws.progress == next)
      && (plan.Card? && Join(dir, plan.filename) !in old(ws.files) ==>
            ws.log == old(ws.log) + [EpisodeFetched(plan.filename)])
      && (!plan.Card? || Join(dir, plan.filename) in old(ws.files) ==> ws.log == old(ws.log))
      && (plan.Card? && Join(dir, plan.filename) !in old(ws.files) ==>
            ws.fetches == old(ws.fetches) + [Fetch(plan.url, Join(dir, plan.filename), false)])
    ensures old(ws.log) <= ws.log
    ensures outcome.Returned? <==> Converts(title, year, season, titles, ep)
    ensures Confined(old(ws.Snapshot()), ws.Snapshot(), Plan({}, CardFile(dir, title, year, season, titles, ep), UrlOf(ep.urlPoster)))
    ensures Supplied(old(ws.Snapshot()), ws.Snapshot(), CardFile(dir, title, year, season, titles, ep))
  {
    ghost var t0 := ws.Snapshot();
    ghost var card := Plan({}, CardFile(dir, title, year, season, titles, ep), UrlOf(ep.urlPoster));
    var plan := PlanEpisode(title, year, season, titles, ep);
    match plan
    case Skip =>
      next := current + 1;
      ws.SetProgress(next);
      outcome := Returned;
      ConfinedStill(t0, card);
    case Fails =>
      next := current;
      outcome := Raised(ValueError);
      ConfinedStill(t0, card);
    case Card(url, filename) =>
      FetchIfAbsent(ws, url, Join(dir, filename), EpisodeFetched(filename));
      next := current + 1;
      ws.SetProgress(next);
      outcome := Returned;
      assert card.files == {Join(dir, filename)};
  }

  /** The episode loop has run through all of `eps`. */
  lemma WholeSeason(dir: Path, title: string, year: string, season: Key, titles: map<string, string>,
                    eps: seq<EpisodeEntry>)
    ensures AllConvert(title, year, season, titles, eps[..|eps|]) == AllConvert(title, year, season, titles, eps)
    ensures CardFiles(dir, title, year, season, titles, eps[..|eps|]) == CardFiles(dir, title, year, season, titles, eps)
  {
    assert eps[..|eps|] == eps;
  }

  /** ProcessEpisode on `eps[i]`, seen from the start `t0` of the loop
      over `eps`: the tree stays within the plan for all of `eps`, and a
      pass that does not raise has supplied every card up to `eps[i]`. */
  method EpisodeStep(ws: Workspace, dir: Path, title: string, year: string, season: Key,
                     titles: map<string, string>, eps: seq<EpisodeEntry>, i: int, current: int,
                     ghost t0: Tree, ghost log0: seq<Event>)
    returns (outcome: Outcome, next: int)
    requires 0 <= i < |eps|
    requires Confined(t0, ws.Snapshot(), Plan({}, CardFiles(dir, title, year, season, titles, eps), EpisodesUrls(eps)))
    requires Supplied(t0, ws.Snapshot(), CardFiles(dir, title, year, season, titles, eps[..i]))
    requires log0 <= ws.log
    requires AllConvert(title, year, season, titles, eps[..i])
    modifies ws
    ensures ws.progressMax == old(ws.progressMax) && log0 <= ws.log
    ensures outcome.Raised? ==> !AllConvert(title, year, season, titles, eps)
    ensures outcome.Returned? ==> AllConvert(title, year, season, titles, eps[..i + 1])
    ensures outcome.Raised? ==> outcome.failure == ValueError && next == current && ws.progress == old(ws.progress)
    ensures outcome.Returned? ==> next == current + 1 && ws.progress == next
    ensures Confined(t0, ws.Snapshot(), Plan({}, CardFiles(dir, title, year, season, titles, eps), EpisodesUrls(eps)))
    ensures outcome.Returned? ==> Supplied(t0, ws.Snapshot(), CardFiles(dir, title, year, season, titles, eps[..i + 1]))
  {
    ghost var before := ws.Snapshot();
    outcome, next := ProcessEpisode(ws, dir, title, year, season, titles, eps[i], current);
    AllConvertStep(title, year, season, titles, eps, i);
    AllConvertPrefix(title, year, season, titles, eps, i + 1);
    CardInPlan(dir, title, year, season, titles, eps, i);
    ConfinedChain(t0, before, ws.Snapshot(), Plan({}, CardFiles(dir, title, year, season, titles, eps), EpisodesUrls(eps)),
      Plan({}, CardFile(dir, title, year, season, titles, eps[i]), UrlOf(eps[i].urlPoster)));
    if outcome.Returned? {
      CardFilesStep(dir, title, year, season, titles, eps, i);
      SuppliedThen(t0, before, ws.Snapshot(), CardFiles(dir, title, year, season, titles, eps[..i]),
        CardFile(dir, title, year, season, titles, eps[i]));
    }
  }

  /** The episode loop of one season. It stops at the first entry that
      raises; until then it counts each entry once, fetches only cards
      that are not there yet, and creates nothing but those cards. */
  method ProcessEpisodes(ws: Workspace, dir: Path, title: string, year: string, season: Key,
                         titles: map<string, string>, eps: seq<EpisodeEntry>, current: int)
    returns (outcome: Outcome, next: int)
    modifies ws
    ensures ws.progressMax == old(ws.progressMax)
    ensures current <= next <= current + |eps|
    ensures outcome.Raised? ==> outcome.failure == ValueError
    ensures outcome.Returned? <==> AllConvert(title, year, season, titles, eps)
    ensures outcome.Returned? ==> next == current + |eps|
    ensures ws.progress == if next == current then old(ws.progress) else next
    ensures Confined(old(ws.Snapshot()), ws.Snapshot(), Plan({}, CardFiles(dir, title, year, season, titles, eps), EpisodesUrls(eps)))
    ensures outcome.Returned? ==> Supplied(old(ws.Snapshot()), ws.Snapshot(), CardFiles(dir, title, year, season, titles, eps))
    ensures old(ws.log) <= ws.log
  {
    ghost var t0 := ws.Snapshot();
    ghost var log0 := ws.log;
    ghost var plan := Plan({}, CardFiles(dir, title, year, season, titles, eps), EpisodesUrls(eps));
    next := current;
    var i := 0;
    while i < |eps|
      invariant 0 <= i <= |eps| && next == current + i
      invariant ws.progressMax == old(ws.progressMax)
      invariant AllConvert(title, year, season, titles, eps[..i])
      invariant i == 0 ==> ws.progress == old(ws.progress)
      invariant i > 0 ==> ws.progress == next
      invariant Confined(t0, ws.Snapshot(), plan)
      invariant Supplied(t0, ws.Snapshot(), CardFiles(dir, title, year, season, titles, eps[..i]))
      invariant log0 <= ws.log
    {
      var o, n := EpisodeStep(ws, dir, title, year, season, titles, eps, i, next, t0, log0);
      if o.Raised? {
        return o, next;
      }
      next := n;
      i := i + 1;
    }
    outcome := Returned;
    WholeSeason(dir, title, year, season, titles, eps);
  }
}
