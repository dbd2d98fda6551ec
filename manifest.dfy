/** The YAML manifest after yaml.safe_load: shows, then seasons, then
    episodes, each a mapping kept in document order. */
module Manifest {
  import opened PyStr

  /** A YAML mapping key: an unquoted number loads as an int, anything
      else as a str. */
  datatype Key = Num(n: int) | Text(s: string)

  /** str(key) */
  function KeyStr(k: Key): string {
    match k
    case Num(n) => IntToString(n)
    case Text(s) => s
  }

  /** int(key); None stands for the ValueError int() raises. */
  function KeyInt(k: Key): Option<int> {
    match k
    case Num(n) => Some(n)
    case Text(s) => ParseInt(s)
  }

  datatype EpisodeEntry = EpisodeEntry(key: Key, urlPoster: Option<string>)

  datatype SeasonEntry = SeasonEntry(key: Key, urlPoster: Option<string>, episodes: seq<EpisodeEntry>)

  datatype ShowEntry = ShowEntry(
    key: Key,
    urlPoster: Option<string>,
    urlBackground: Option<string>,
    seasons: seq<SeasonEntry>)

  /** What yaml.safe_load makes of the pasted text: a parse error (with its
      message), a document that is not a mapping (an empty text loads as
      None), or the manifest. */
  datatype Document = Unparsable(error: string) | NotAMapping | Mapping(shows: seq<ShowEntry>)

  /** Number of episode entries over a run of seasons. */
  function SeasonsEpisodes(seasons: seq<SeasonEntry>): nat {
    if seasons == [] then 0
    else SeasonsEpisodes(seasons[..|seasons| - 1]) + |seasons[|seasons| - 1].episodes|
  }

  /** The progress total: episode entries over every season of every show. */
  function Total(shows: seq<ShowEntry>): nat {
    if shows == [] then 0
    else Total(shows[..|shows| - 1]) + SeasonsEpisodes(shows[|shows| - 1].seasons)
  }

  /** The URL an optional url_poster / url_background holds. */
  function UrlOf(u: Option<string>): set<string> {
    if u.Some? then {u.value} else {}
  }

  /** The title-card URLs of a run of episode entries. */
  function EpisodesUrls(eps: seq<EpisodeEntry>): set<string> {
    set e | e in eps && e.urlPoster.Some? :: e.urlPoster.value
  }

  /** Every URL a season entry names: its poster and its episodes' cards. */
  function SeasonUrls(s: SeasonEntry): set<string> {
    UrlOf(s.urlPoster) + EpisodesUrls(s.episodes)
  }

  function SeasonsUrls(seasons: seq<SeasonEntry>): set<string> {
    set s, u | s in seasons && u in SeasonUrls(s) :: u
  }

  /** Every URL a show entry names, show-level artwork included. */
  function ShowUrls(show: ShowEntry): set<string> {
    UrlOf(show.urlPoster) + UrlOf(show.urlBackground) + SeasonsUrls(show.seasons)
  }

  /** Every URL the manifest names. */
  function ManifestUrls(shows: seq<ShowEntry>): set<string> {
    set s, u | s in shows && u in ShowUrls(s) :: u
  }

  /** Adding a season adds exactly the URLs it names. */
  lemma SeasonsUrlsLast(seasons: seq<SeasonEntry>)
    requires seasons != []
    ensures SeasonsUrls(seasons) == SeasonsUrls(seasons[..|seasons| - 1]) + SeasonUrls(seasons[|seasons| - 1])
  {
    var pre, s := seasons[..|seasons| - 1], seasons[|seasons| - 1];
    assert seasons == pre + [s];
    forall u | u in SeasonsUrls(seasons) ensures u in SeasonsUrls(pre) + SeasonUrls(s) {
      var t :| t in seasons && u in SeasonUrls(t);
      if t != s {
        assert t in pre;
      }
    }
    forall u | u in SeasonsUrls(pre) ensures u in SeasonsUrls(seasons) {
      var t :| t in pre && u in SeasonUrls(t);
      assert t in seasons;
    }
    assert s in seasons;
  }

  /** Adding a show adds exactly the URLs it names. */
  lemma ManifestUrlsLast(shows: seq<ShowEntry>)
    requires shows != []
    ensures ManifestUrls(shows) == ManifestUrls(shows[..|shows| - 1]) + ShowUrls(shows[|shows| - 1])
  {
    var pre, s := shows[..|shows| - 1], shows[|shows| - 1];
    assert shows == pre + [s];
    forall u | u in ManifestUrls(shows) ensures u in ManifestUrls(pre) + ShowUrls(s) {
      var t :| t in shows && u in ShowUrls(t);
      if t != s {
        assert t in pre;
      }
    }
    forall u | u in ManifestUrls(pre) ensures u in ManifestUrls(shows) {
      var t :| t in pre && u in ShowUrls(t);
      assert t in shows;
    }
    assert s in shows;
  }

  /** A season key that prints as "0" always converts to 0, so the
      specials branch never reaches a ValueError. */
  lemma SpecialsKeyIsZero(k: Key)
    requires KeyStr(k) == "0"
    ensures KeyInt(k) == Some(0)
  {
    match k
    case Num(n) => IntToStringZero(n);
    case Text(s) => ParseIntOfDigits(s);
  }

  /** The total of a manifest counts every episode entry exactly once:
      splitting the shows splits the total. */
  lemma {:induction false} TotalAppend(a: seq<ShowEntry>, b: seq<ShowEntry>)
    ensures Total(a + b) == Total(a) + Total(b)
    decreases |b|
  {
    if b != [] {
      var b' := b[..|b| - 1];
      assert (a + b)[..|a + b| - 1] == a + b';
      TotalAppend(a, b');
    } else {
      assert a + b == a;
    }
  }

  // Counting: the progress maximum is the episode total of the whole
  // manifest, but a show the run skips never advances the count.

  /** The episode entries a show contributes to the count. */
  function ShowCount(resolves: Key -> bool, show: ShowEntry): nat {
    if resolves(show.key) then SeasonsEpisodes(show.seasons) else 0
  }

  /** What a run that does not raise counts over `shows`. */
  function Counted(resolves: Key -> bool, shows: seq<ShowEntry>): nat {
    if shows == [] then 0
    else Counted(resolves, shows[..|shows| - 1]) + ShowCount(resolves, shows[|shows| - 1])
  }

  lemma {:induction false} CountedAtMostTotal(resolves: Key -> bool, shows: seq<ShowEntry>)
    ensures Counted(resolves, shows) <= Total(shows)
  {
    if shows != [] {
      CountedAtMostTotal(resolves, shows[..|shows| - 1]);
    }
  }

  lemma {:induction false} CountedPrefix(resolves: Key -> bool, shows: seq<ShowEntry>, i: int)
    requires 0 <= i <= |shows|
    ensures Counted(resolves, shows[..i]) <= Counted(resolves, shows)
    decreases |shows|
  {
    if i < |shows| {
      var pre := shows[..|shows| - 1];
      assert pre[..i] == shows[..i];
      CountedPrefix(resolves, pre, i);
    } else {
      assert shows[..i] == shows;
    }
  }

  /** One more show adds its own count, and a prefix counts no more than
      the whole. */
  lemma CountedStep(resolves: Key -> bool, shows: seq<ShowEntry>, i: int)
    requires 0 <= i < |shows|
    ensures Counted(resolves, shows[..i + 1]) == Counted(resolves, shows[..i]) + ShowCount(resolves, shows[i])
    ensures Counted(resolves, shows[..i + 1]) <= Counted(resolves, shows)
  {
    assert shows[..i + 1][..i] == shows[..i];
    CountedPrefix(resolves, shows, i + 1);
  }

  lemma {:induction false} SeasonsEpisodesPrefix(seasons: seq<SeasonEntry>, i: int)
    requires 0 <= i <= |seasons|
    ensures SeasonsEpisodes(seasons[..i]) <= SeasonsEpisodes(seasons)
    decreases |seasons|
  {
    if i < |seasons| {
      var pre := seasons[..|seasons| - 1];
      assert pre[..i] == seasons[..i];
      SeasonsEpisodesPrefix(pre, i);
    } else {
      assert seasons[..i] == seasons;
    }
  }

  /** The bar reaches its maximum on a completed run exactly when every
      show that was skipped has no episode entries. */
  lemma {:induction false} CountedEqualsTotalIff(resolves: Key -> bool, shows: seq<ShowEntry>)
    ensures Counted(resolves, shows) == Total(shows) <==>
      forall i :: 0 <= i < |shows| && !resolves(shows[i].key) ==> SeasonsEpisodes(shows[i].seasons) == 0
  {
    if shows != [] {
      var pre := shows[..|shows| - 1];
      var last := shows[|shows| - 1];
      CountedEqualsTotalIff(resolves, pre);
      CountedAtMostTotal(resolves, pre);
      assert forall i :: 0 <= i < |pre| ==> pre[i] == shows[i];
    }
  }
}
