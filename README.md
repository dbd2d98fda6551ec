# Mediux title-card downloader, modelled in Dafny

The Mediux YAML downloader reads a manifest of shows. Each show has its
seasons, each season its episodes, and each carries artwork URLs. The
downloader lays out a folder tree of posters and episode title cards under a
destination folder. It exists twice:

- `mediux_titlecards_gui.py` looks shows up on TMDb.
- `mediux_titlecards_tvdb.py` looks them up on TVDB. It reuses an existing
  show folder by prefix and pages through the episode list with a cached
  login token.

This project models the core of both variants:

- the names they compute;
- the episode-title index each builds;
- the TVDB token cache;
- `process_yaml` itself.

It proves what the code promises about counting, naming, the folder tree,
and skipping what already exists.

Modules, one per file:

- `PyStr` (`py_str.dfy`) covers the Python built-ins the code relies on:
  `str()` and `int()` of integers and strings, the `:02` format, `strip()`,
  `startswith()`, `[:4]`, and `os.path.splitext`.
- `Manifest` (`manifest.dfy`) is the parsed YAML document. A key is an
  integer or a string, as YAML gives either. It also holds the `total` sum
  and the count of episodes the loop walks.
- `Naming` (`naming.dfy`) holds the f-string names both variants share: the
  sanitised title, the artwork extension, the season poster name, and the
  episode card file name.
- `Env` (`env.dfy`) is the outside world, a `Workspace` class. It holds the
  directories and files of the destination, the log (without timestamps),
  the progress bar, and `download_image`. `download_image` may or may not
  leave the file behind.
  - A ghost trace records every download and whether its destination
    already existed.
  - `Confined` says that a step created only planned directories and files,
    and downloaded only planned URLs to destinations that were absent. When
    every planned directory and file already existed, the step changed
    nothing. That last part is the resume and idempotence mechanism of both
    scripts.
- `Artwork` (`artwork.dfy`) is the season poster and episode card steps
  shared by both loops.
- `Tmdb` (`tmdb.dfy`) is `mediux_titlecards_gui.py`. `get_tmdb_id`,
  `get_show_info` and `get_episode_titles` become functions over a fixed
  `Provider` of TMDb answers. `process_yaml` becomes methods over the
  workspace.
- `TvdbApi` (`tvdb_api.dfy`) covers the TVDB side of
  `mediux_titlecards_tvdb.py`: the module-level `TOKEN` as a `Session`
  class, `get_show_info` with its defaults, and the paginated
  `get_episode_titles` loop.
- `Tvdb` (`tvdb.dfy`) is that file's `process_yaml`: the prefix search for
  the show folder, the unpadded season folders, and the loops.

The Python exceptions modelled as escaping `process_yaml` and ending the
worker thread appear as `Outcome.Raised` (the network failures that also
escape are listed under "Left out"):

- `ValueError`: `int()` of a key that is not a number.
- `NotAMapping`: a document with no `.values()`.
- `AuthFailed`: the TVDB login refused.
- `NoSuchDirectory`: `os.listdir` of a missing destination.
- `NullField`: a JSON `null` where the TVDB code calls a string method.

## Model

| member | source | states |
|---|---|---|
| PyStr.SplitExt | mediux_titlecards_gui.py:130 | `os.path.splitext`: root and extension concatenate back to the path; the extension is empty or a dot followed by no dot and no slash |
| PyStr.SplitExtOfSuffix | mediux_titlecards_gui.py:130 | conversely, a last path component with a character other than '.' before its last dot splits at that dot: `…/poster.png` gives `.png` |
| PyStr.SplitExtLeadingDots | mediux_titlecards_gui.py:130 | a last path component made of leading dots and then no dot (`.png`, `..bashrc`) has no extension: the root is the whole path, so the code falls back to ".jpg" |
| PyStr.Take | mediux_titlecards_gui.py:76 | `s[:4]` is a prefix of `s` of length min(len(s), 4) |
| PyStr.StripStart | mediux_titlecards_tvdb.py:98 | `lstrip()` drops exactly the leading whitespace: a suffix whose first character is not whitespace (with `str.isspace()` for `strip()`, and with the narrower set `int()` skips) |
| PyStr.StripEnd | mediux_titlecards_tvdb.py:98 | `rstrip()` drops exactly the trailing whitespace: a prefix whose last character is not whitespace (with either set, as for StripStart) |
| PyStr.StripEmptyIff | mediux_titlecards_tvdb.py:98-99 | `strip()` gives the empty string exactly for an all-whitespace name |
| PyStr.NatToString | mediux_titlecards_gui.py:85 | `str(n)` of a natural is a non-empty digit string without a leading zero |
| PyStr.ParseIntOfIntToString | mediux_titlecards_gui.py:165 | `int(str(n)) == n` for every integer |
| PyStr.ParseIntRejects | mediux_titlecards_gui.py:143 | `int()` raises when the first character after the whitespace it skips is neither a sign nor a digit |
| PyStr.IntSkipsLessThanStrip | mediux_titlecards_gui.py:143 | `int()` does not skip the separators U+001C to U+001F that `strip()` drops: a key of one separator then digits raises, though stripping it would leave the digits |
| PyStr.IntToStringInjective | mediux_titlecards_gui.py:85 | different episode numbers give different keys `str(n)` |
| PyStr.IntToStringZero | mediux_titlecards_gui.py:143 | `str(n) == "0"` exactly when n is 0 |
| PyStr.Pad2RoundTrip | mediux_titlecards_gui.py:143 | the `:02` form reads back as the number |
| PyStr.Pad2Shape | mediux_titlecards_gui.py:165 | the `:02` form is a sign or digit, then digits only; it is two characters wide for 0 to 9 and otherwise as wide as `str(n)` |
| PyStr.Pad2Injective | mediux_titlecards_gui.py:165 | different numbers have different `:02` forms |
| Manifest.SpecialsKeyIsZero | mediux_titlecards_gui.py:143 | a key whose `str()` is "0" has `int()` 0 |
| Manifest.TotalAppend | mediux_titlecards_gui.py:105-109 | `total` counts each episode entry once: the total of two runs of shows is the sum of their totals |
| Manifest.CountedAtMostTotal | mediux_titlecards_gui.py:105-122 | the episodes of the shows the loop does not skip never exceed `total` |
| Manifest.CountedPrefix | mediux_titlecards_gui.py:113-175 | the count after the first i shows never exceeds the count after all of them |
| Manifest.CountedStep | mediux_titlecards_gui.py:113-175 | one more show adds its episodes to the count when it is not skipped, and nothing when it is |
| Manifest.SeasonsEpisodesPrefix | mediux_titlecards_gui.py:142-175 | the episodes of the first i seasons never exceed those of all seasons |
| Manifest.CountedEqualsTotalIff | mediux_titlecards_gui.py:113-122 | the count reaches `total` exactly when every skipped show has no episodes |
| Naming.SanitizeTitle | mediux_titlecards_gui.py:75 | the title has no ':' and is one character longer per ':' of the name |
| Naming.SanitizeAppend | mediux_titlecards_gui.py:75 | `replace` works character by character: the two halves of a name are sanitised on their own (also line 77 of the TVDB file) |
| Naming.SanitizeReplaces | mediux_titlecards_gui.py:75 | each ':' becomes " -" where it stands and every other character stays, which with the empty name pins `name.replace(":", " -")` (also line 77 of the TVDB file) |
| Naming.SanitizeColonFree | mediux_titlecards_gui.py:75 | a name without ':' is left as it is |
| Naming.SanitizeIdempotent | mediux_titlecards_gui.py:75 | replacing colons twice is replacing them once |
| Naming.ArtExtension | mediux_titlecards_gui.py:130 | the extension starts with '.', has no '/', is ".jpg" when splitext gives none and otherwise is the URL's own suffix |
| Naming.ArtExtensionOfSuffix | mediux_titlecards_gui.py:130 | a URL whose last component has a character other than '.' before its last dot keeps its own suffix as the extension |
| Naming.SeasonPosterFails | mediux_titlecards_gui.py:150 | the season poster name fails exactly when `int()` of the key fails |
| Naming.SeasonPosterSpecials | mediux_titlecards_gui.py:150 | the poster is `specials{ext}` exactly for the key that prints as "0" |
| Naming.SeasonPosterNumbered | mediux_titlecards_gui.py:150 | otherwise it is `season{d}{ext}`, d reading back as the key: a sign or digit then digits, two wide for 0 to 9 and otherwise as wide as `str()` of the key (also line 160 of the TVDB file) |
| Naming.EpisodeFileNameShape | mediux_titlecards_gui.py:165 | a card name starts with `{title} ({year}) - S` and ends in ".jpg" |
| Naming.EpisodeCodeInjective | mediux_titlecards_gui.py:165 | `S{ss}E{ee} - {t}.jpg` determines season, episode and title |
| Naming.EpisodeFileNameInjective | mediux_titlecards_gui.py:165 | two episodes of a show share a card name only when their season, episode and title agree |
| Env.Ancestry | mediux_titlecards_gui.py:125 | `os.makedirs` leaves every non-empty leading part of the path in place, and nothing else |
| Env.Workspace.MakeDirs | mediux_titlecards_gui.py:125 | the directories become the old ones plus the path's ancestry |
| Env.Workspace.IsFile | mediux_titlecards_gui.py:132 | true exactly for an existing file |
| Env.Workspace.IsDir | mediux_titlecards_tvdb.py:146 | true exactly for an existing directory |
| Env.Workspace.Log | mediux_titlecards_gui.py:57-60 | the log gains exactly the one line |
| Env.Workspace.SetProgress | mediux_titlecards_gui.py:162 | the bar shows the given count |
| Env.Workspace.SetProgressMax | mediux_titlecards_gui.py:110 | the bar's maximum is the given total |
| Env.Workspace.Download | mediux_titlecards_gui.py:88-96 | the call is recorded with whether its destination existed; the file set is unchanged or gains exactly the destination, never where a directory stands |
| Env.Workspace.Children | mediux_titlecards_tvdb.py:144 | the names directly inside a directory are exactly those of existing entries |
| Env.Workspace.ListDir | mediux_titlecards_tvdb.py:144 | `os.listdir` fails exactly for a missing directory, and otherwise lists every entry exactly once |
| Artwork.PlanEpisode | mediux_titlecards_gui.py:157-165 | an entry is skipped exactly when its URL or its title is falsy; otherwise it raises exactly when `int()` rejects the season or the episode key, and else its card is the episode file name for its title, from its URL |
| Artwork.AllConvertIff | mediux_titlecards_gui.py:165 | the episode loop gets through a season exactly when `int()` accepts the keys of every entry that has both a URL and a title |
| Artwork.CardFilesUnder | mediux_titlecards_gui.py:166 | every card lies directly in its season folder |
| Artwork.FetchIfAbsent | mediux_titlecards_gui.py:152-154 | an existing destination is left alone, with no download and no log line; otherwise exactly one download and one log line |
| Artwork.FetchSeasonPoster | mediux_titlecards_gui.py:147-154 | a missing season poster gets exactly one download from the season's URL and exactly one "Downloaded" log line naming it; only it may appear, and when it exists nothing is downloaded and nothing is logged |
| Artwork.MakeSeasonFolder | mediux_titlecards_gui.py:144-154 | the season folder exists afterwards; only it, its ancestry and its poster may appear; the poster existed or was downloaded |
| Artwork.ProcessEpisode | mediux_titlecards_gui.py:157-175 | one pass counts the entry once on each of the three paths, downloads a card exactly when it is missing, logs "Downloaded" only then, and raises only for a failed `int()` |
| Artwork.ProcessEpisodes | mediux_titlecards_gui.py:157-175 | the loop counts every entry when it finishes, and then every card of the season existed or was downloaded; it creates only the season's cards from its entries' URLs, and nothing when they all exist |
| Tmdb.ShowInfoSpec | mediux_titlecards_gui.py:70-78 | `(None, None)` exactly for a show TMDb does not answer; otherwise the name with each ':' replaced by " -" (so colon-free) and the first (up to) four characters of the air date |
| Tmdb.TitleIndex | mediux_titlecards_gui.py:85 | the index has exactly the keys `str(episode_number)` of the season's episodes |
| Tmdb.TitleIndexLastWins | mediux_titlecards_gui.py:85 | the last episode with a given number wins |
| Tmdb.EpisodeTitles | mediux_titlecards_gui.py:80-86 | a season TMDb does not answer gives `{}`; otherwise the keys are those of its episodes |
| Tmdb.ResolveSpec | mediux_titlecards_gui.py:113-122 | a show is laid out exactly when it has a non-zero TMDb id, TMDb answers for it, and its name and air date are non-empty |
| Tmdb.SeasonFolderName | mediux_titlecards_gui.py:143 | the season folder name fails exactly when `int()` of the key fails |
| Tmdb.SeasonFolderSpecials | mediux_titlecards_gui.py:143 | "Specials" exactly for the key that prints as "0" |
| Tmdb.SeasonFolderNumbered | mediux_titlecards_gui.py:143 | otherwise "Season " and d reading back as the key: a sign or digit then digits, two wide for 0 to 9 and otherwise as wide as `str()` of the key |
| Tmdb.SeasonsPlanUrls | mediux_titlecards_gui.py:142-175 | a show's seasons download only URLs its seasons name |
| Tmdb.RunPlanUrls | mediux_titlecards_gui.py:113-177 | a run downloads only URLs the manifest names |
| Tmdb.FetchArt | mediux_titlecards_gui.py:129-140 | one of the two artwork steps: the file `{stem}{ext}` for a truthy URL is downloaded from that URL, and logged as a show poster or a background, exactly when it is missing; only it may appear, and it existed or was downloaded |
| Tmdb.ArtNamesDiffer | mediux_titlecards_gui.py:131-137 | the show poster and the background never share a file name, whatever their extensions |
| Tmdb.FetchShowArt | mediux_titlecards_gui.py:127-140 | poster first, then background: each missing file with a truthy URL gets exactly one download from its own URL and one log line of its own kind, in that order, and nothing else is downloaded or logged; each existed or was downloaded; only they may appear |
| Tmdb.ProcessSeason | mediux_titlecards_gui.py:143-175 | a non-numeric key raises before anything is created; otherwise the season counts all its entries and stays within its folder, poster and cards, each of which existed or was downloaded |
| Tmdb.ProcessSeasons | mediux_titlecards_gui.py:142-175 | the season loop counts every episode of the show, stays within the show's season plans, and every planned poster and card existed or was downloaded |
| Tmdb.MakeShowFolder | mediux_titlecards_gui.py:124-139 | the folder is `{title} ({year})` in the destination and exists afterwards; its poster and background existed or were downloaded |
| Tmdb.LayOutShow | mediux_titlecards_gui.py:124-177 | a resolved show counts all its episodes, creates only its folder tree and artwork, every planned file existed or was downloaded, then logs "Finished processing" |
| Tmdb.ProcessShow | mediux_titlecards_gui.py:113-177 | a skipped show logs one line and changes nothing else; a laid-out one counts its episodes exactly once and supplies every file it plans |
| Tmdb.ProcessShowOf | mediux_titlecards_gui.py:113-177 | show i adds its count to the prefix count and its plan to the prefix plan |
| Tmdb.ProcessShows | mediux_titlecards_gui.py:105-179 | the maximum is `total`; the count ends at the episodes of the laid-out shows, never above `total`; only planned folders and files appear; a run that finishes leaves every planned folder in place and every planned file either already there or downloaded; nothing changes when they all exist |
| Tmdb.ProcessYaml | mediux_titlecards_gui.py:98-179 | a parse failure logs one line and touches nothing else; otherwise the run is as ProcessShows says, and every download is of a manifest URL to a missing destination |
| TvdbApi.Session.constructor | mediux_titlecards_tvdb.py:34 | the run starts with no token and no login requests |
| TvdbApi.Session.Authenticate | mediux_titlecards_tvdb.py:56-65 | one login request; on success the token is its answer, on refusal it raises and the token is unchanged |
| TvdbApi.Session.GetHeaders | mediux_titlecards_tvdb.py:67-71 | logs in only when the token is falsy; a truthy token is kept with no request; a refused login raises and keeps the token; the header is "Bearer " and the token |
| TvdbApi.AuthedChain | mediux_titlecards_tvdb.py:67-71 | successive header requests keep to the caching rule: at most one login for a truthy answer |
| TvdbApi.AuthedCanAuth | mediux_titlecards_tvdb.py:67-71 | whether the headers can be had never changes during a run |
| TvdbApi.ShowInfoFails | mediux_titlecards_tvdb.py:73-80 | `(None, None)` exactly for a series TVDB does not answer; a null name or air date raises |
| TvdbApi.ShowInfoTitle | mediux_titlecards_tvdb.py:77 | the title is "Unknown Title" for a missing name and otherwise the name with each ':' replaced by " -"; it has no ':' and grows by one character per colon |
| TvdbApi.ShowInfoYear | mediux_titlecards_tvdb.py:78 | the year is "0000" for a missing air date and otherwise its first (up to) four characters |
| TvdbApi.ResolveSpec | mediux_titlecards_tvdb.py:137-140 | a show is laid out exactly when TVDB answers with a name and an air date that are neither null nor empty |
| TvdbApi.GetShowInfo | mediux_titlecards_tvdb.py:73-80 | the headers come first, so a refused login raises; otherwise the answer is the series lookup |
| TvdbApi.EpKey | mediux_titlecards_tvdb.py:97 | `str(ep.get("number"))` is never empty, so the `ep_num` test never rejects |
| TvdbApi.PageTitlesFails | mediux_titlecards_tvdb.py:95-100 | a page raises exactly when an entry of the season has a null name |
| TvdbApi.PageTitlesKeys | mediux_titlecards_tvdb.py:95-100 | a page adds exactly the numbers of its entries of the season with a non-empty stripped name |
| TvdbApi.PageTitlesValues | mediux_titlecards_tvdb.py:95-100 | every title is an earlier one or the stripped name of such an entry |
| TvdbApi.PageTitlesLastWins | mediux_titlecards_tvdb.py:100 | the last such entry with a given number wins |
| TvdbApi.MergePage | mediux_titlecards_tvdb.py:95-100 | the loop over one page computes the page's titles |
| TvdbApi.CollectFails | mediux_titlecards_tvdb.py:82-104 | the page loop raises only for a null name of the season, on a page it reaches: every page before it raised nothing and had a next link |
| TvdbApi.RequestedStops | mediux_titlecards_tvdb.py:88-103 | every page requested before the last one was OK, raised nothing and had a next link |
| TvdbApi.CollectStops | mediux_titlecards_tvdb.py:101-103 | the pages after the first one without a next link play no part |
| TvdbApi.CollectFromSeason | mediux_titlecards_tvdb.py:82-104 | every title comes from an entry of the requested season with a non-empty stripped name |
| TvdbApi.GetEpisodeTitles | mediux_titlecards_tvdb.py:82-104 | requests pages 0, 1, 2, … in order, as many as the stopping rule allows, and returns the titles of the season; a refused login raises first |
| Tvdb.SeasonFolderName | mediux_titlecards_tvdb.py:153 | the season folder name fails exactly when `int()` of the key fails |
| Tvdb.SeasonFolderSpecials | mediux_titlecards_tvdb.py:153 | "Specials" exactly for the key that prints as "0" |
| Tvdb.SeasonFolderNumbered | mediux_titlecards_tvdb.py:153 | otherwise "Season " and `str()` of the key's value, unpadded, which reads back as the key |
| Tvdb.FirstMatch | mediux_titlecards_tvdb.py:144-148 | the first entry in listing order that is a directory with the prefix, and no earlier one |
| Tvdb.FindShowFolder | mediux_titlecards_tvdb.py:144-149 | a missing destination raises; otherwise the result is the first matching directory in listing order, or none when no directory has the prefix |
| Tvdb.FindOrMakeShowFolder | mediux_titlecards_tvdb.py:142-150 | the folder is in the destination and starts with the prefix; it is created, under exactly the prefix, only when no directory had the prefix |
| Tvdb.SeasonPlanBounds | mediux_titlecards_tvdb.py:153-185 | a season downloads only URLs it names, into files two levels below the show folder |
| Tvdb.SeasonsPlanBounds | mediux_titlecards_tvdb.py:152-185 | so do a show's seasons |
| Tvdb.GrownOfLayout | mediux_titlecards_tvdb.py:142-185 | a show laid out in a folder of the destination adds files only three levels below it |
| Tvdb.SeasonCards | mediux_titlecards_tvdb.py:166-185 | the season's titles are fetched, then its cards, each of which existed or was downloaded; a null name raises, and a refused login raises |
| Tvdb.ProcessSeason | mediux_titlecards_tvdb.py:153-185 | a non-numeric key raises before anything is created; otherwise the season counts all its entries and stays within its folder, poster and cards, each of which existed or was downloaded |
| Tvdb.ProcessSeasons | mediux_titlecards_tvdb.py:152-185 | the season loop counts every episode, stays within the show's season plans, and every planned poster and card existed or was downloaded |
| Tvdb.FinishShow | mediux_titlecards_tvdb.py:152-187 | the seasons, then "Finished processing" unless a season raised |
| Tvdb.LayOutShow | mediux_titlecards_tvdb.py:142-187 | a missing destination raises and changes nothing; otherwise the folder is chosen as the prefix search says, only it (with its parents) and its seasons' folders, posters and cards appear, a reused folder gains only its seasons' artwork, nothing changes when all of that is in place, and each planned poster and card existed or was downloaded |
| Tvdb.ProcessResolved | mediux_titlecards_tvdb.py:142-187 | what a resolved show may create and fetch: only season artwork, three levels below the destination, and only the layout of the folder it used, where a reused folder gains only season artwork; that folder was chosen by the prefix search and its planned artwork is supplied |
| Tvdb.ProcessShow | mediux_titlecards_tvdb.py:136-187 | a refused login raises before anything else; a skipped show logs one line and changes nothing else; a resolved show counts its episodes exactly once, in a folder of the destination named by its prefix, stays within that folder's layout (a reused folder gains only its seasons' artwork), and supplies its planned artwork |
| Tvdb.ProcessShowOf | mediux_titlecards_tvdb.py:136-187 | show i adds its count to the prefix count, keeps the run's growth rule, and adds its folder and its supplied artwork to those of the shows before it |
| Tvdb.ProcessShows | mediux_titlecards_tvdb.py:128-189 | the maximum is `total`; the count ends at the episodes of the resolved shows; a refused login raises at the first show; only season artwork of the manifest is downloaded, to missing destinations; a run that finishes names, per resolved show, a folder in the destination starting with its prefix, and every season poster and card planned there existed or was downloaded |
| Tvdb.ProcessYaml | mediux_titlecards_tvdb.py:121-189 | a parse failure logs one line and touches nothing else; otherwise the run is as ProcessShows says |

## Left out

- The tkinter window, menus, dialogs, the config file and `start_thread`'s thread are presentation and configuration. `process_yaml` is modelled as a call.
- HTTP is left out. TMDb and TVDB answers are fixed maps, the `Provider`s, for the length of a run. The response shapes are reduced to the fields the code reads. A `data` value that is a list rather than a dictionary, for example, is one of the shapes this reduction covers.
- `yaml.safe_load` is left out. The document is either already parsed, an error message, or not a mapping. A show or season that is not itself a mapping, and a `seasons`/`episodes` field of another type, are not modelled.
- `download_image` does not write bytes. Whether the file appears is a free choice, because its response and every exception it swallows are outside the model. The "Downloaded" log line is written either way, so the model never reads it as evidence that the file exists.
- Log timestamps from `datetime.now()` are dropped. Log lines are `Event` values.
- `os.makedirs` failures are not modelled: a file in the way, permissions. It always succeeds here.
- The order of `os.listdir` is the file system's, and the model leaves it open.
- `int()` of a string follows ASCII digits, an optional sign and surrounding whitespace. The whitespace it skips is C's `isspace()` for ASCII characters (tab, line feed, vertical tab, form feed, carriage return, space) and `str.isspace()` for every other character. The separators U+001C to U+001F are therefore not skipped by `int()`, though `strip()` drops them. Digit-group underscores and non-ASCII digits are not modelled.
- YAML keys are integers or strings. A float key (`1.5:` prints as "1.5", and `int()` truncates it to 1) and a boolean key (`yes:` prints as "True", and `int()` gives 1) are not modelled.
- An episode entry that is not a mapping (a bare key with no value) raises `AttributeError` at `ep_data.get` in both files. The model gives every entry its fields.
- The `requests` calls and `resp.json()` in `get_tmdb_id`, `get_show_info` and `get_episode_titles` of both files, and in `authenticate_tvdb`, sit in no `try`. A connection error, a time-out or a body that is not JSON ends the run with an exception. Here every provider always answers; only `download_image` swallows such failures.
- `progress_var` is never reset at the start of a run in either script. The model keeps the old value until the first increment, as the code does.
- The TMDb variant's `data["name"]` or `data["first_air_date"]` being `null` or missing raises in the code. Here the TMDb answer always carries both strings.
- A TVDB login answer whose `token` is missing or not a string is not modelled. A successful login is an `Option<string>` answer.
- A path is a sequence of components and `Join` adds a name as one component, even when the name holds a '/'. In Python, `os.path.join` followed by `os.makedirs` or `open` splits at that '/'. A title "20/20" makes two nested show folders. An episode title "Part 1/2" puts its card in a subfolder that is never created, so `open()` fails inside `download_image`, the failure is swallowed, and the card is downloaded and logged again on every run. Every contract that places a show folder, a season folder or a card by its name holds of the source only for names without '/'. The members below are the ones whose promise then differs; each is true of the model as stated:
- Artwork.CardFilesUnder: "directly in the season folder" holds only for episode titles without '/'.
- Tmdb.MakeShowFolder: "`{title} ({year})` in the destination" holds only for titles without '/'; otherwise the code creates extra nested folders.
- Tmdb.ProcessShows: "only planned folders appear" holds only for titles without '/'; and a card whose title holds '/' counts as supplied because it was downloaded, though the code can never write it.
- Tvdb.FindOrMakeShowFolder: "in the destination" holds only for a prefix without '/'.
- Tvdb.SeasonPlanBounds: "two levels below the show folder" holds only for episode titles without '/'.
- Tvdb.SeasonsPlanBounds: the same '/' limit as SeasonPlanBounds.
- Tvdb.GrownOfLayout: "three levels below the destination" holds only for titles and episode titles without '/'.
- Tvdb.ProcessResolved: "three levels below the destination" holds only for names without '/'.
- Tmdb.LayOutShow: "creates only its folder tree" holds only for a title without '/'. For "20/20", `os.makedirs` also creates the folder "20" in the destination, and the show folder lies two levels below it. A card whose episode title holds '/' counts as supplied because it was downloaded, though the code can never write it.
- Tmdb.ProcessShow: the same '/' limit as Tmdb.LayOutShow.
- Tmdb.ProcessShowOf: the same '/' limit as Tmdb.LayOutShow, for show i.
- Tmdb.ProcessYaml: the same '/' limit as Tmdb.ProcessShows.
- Tvdb.LayOutShow: "only it (with its parents) and its seasons' folders, posters and cards appear" holds only for a prefix without '/'. For "20/20", `os.makedirs` also creates the folder "20" in the destination; the show folder lies two levels below it, so the prefix search of a later run never finds it. A card whose episode title holds '/' counts as supplied because it was downloaded, though the code can never write it.
- Tvdb.ProcessShow: the same '/' limit as Tvdb.LayOutShow.
- Tvdb.ProcessShowOf: the same '/' limit as Tvdb.LayOutShow, for show i.
- Tvdb.ProcessShows: "a folder in the destination" and "every card planned there existed or was downloaded" carry the same '/' limit as Tvdb.LayOutShow.
- Tvdb.ProcessYaml: the same '/' limit as Tvdb.ProcessShows.
- TVDB pages are a finite list. The page after the last listed one answers with an error, which bounds the `while True` loop. The code itself loops for as long as the server keeps giving next links.
- Tvdb.ProcessShows: states no run-level "nothing changes on a second run" property as Tmdb.ProcessShows does. The reused show folder depends on the listing order, so the run's plan is not a function of the manifest alone. The property is stated per show, by the plan for the folder it chose (Tvdb.LayOutShow, Tvdb.ProcessResolved, Tvdb.ProcessShow): when that folder, its seasons' folders and their artwork are all in place, the show changes nothing.
- Tvdb.ProcessShows: does not state which directories a run creates, only that files and downloads stay within the season artwork of the manifest.
