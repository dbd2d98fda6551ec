/** The TVDB side of mediux_titlecards_tvdb.py: the cached login token,
    the series lookup with its defaults, and the paginated episode-title
    query (lines 56-104). */
module TvdbApi {
  import opened PyStr
  import opened Manifest
  import opened Naming
  import opened Env

  // ---------------------------------------------------------------------
  // The login token (TOKEN, authenticate_tvdb, get_headers).

  /** A login can be had: the cached token is truthy, or the login request
      succeeds. */
  predicate CanAuth(token: Option<string>, login: Option<string>) {
    Truthy(token) || login.Some?
  }

  /** How the token and the number of login requests may move from
      (t0, n0) to (t1, n1) when every login request answers `login`:
      logging in happens only while the token is falsy and either stores the
      answer or (when refused) leaves the token alone, and a truthy answer
      is asked for at most once. */
  predicate Authed(t0: Option<string>, n0: nat, t1: Option<string>, n1: nat, login: Option<string>) {
    && n0 <= n1
    && (n1 == n0 ==> t1 == t0)
    && (n1 > n0 ==> !Truthy(t0) && t1 == (if login.Some? then login else t0))
    && (Truthy(login) ==> n1 <= n0 + 1)
  }

  /** Two stretches of requests in a row keep to the same rule. */
  lemma AuthedChain(t0: Option<string>, n0: nat, t1: Option<string>, n1: nat, t2: Option<string>, n2: nat,
                    login: Option<string>)
    requires Authed(t0, n0, t1, n1, login) && Authed(t1, n1, t2, n2, login)
    ensures Authed(t0, n0, t2, n2, login)
  {
    if n1 > n0 && Truthy(login) {
      assert t1 == login;
    }
  }

  /** Whether a login can be had never changes along the way. */
  lemma AuthedCanAuth(t0: Option<string>, n0: nat, t1: Option<string>, n1: nat, login: Option<string>)
    requires Authed(t0, n0, t1, n1, login)
    ensures CanAuth(t1, login) <==> CanAuth(t0, login)
  {
  }

  /** The module-level TOKEN and the login requests made so far. */
  class Session {
    var token: Option<string>
    ghost var logins: nat

    /** TOKEN = None at import. */
    constructor ()
      ensures token == None && logins == 0
    {
      token := None;
      logins := 0;
    }

    /** authenticate_tvdb(): one login request whose answer is `login`
        (None for a response that is not OK). */
    method Authenticate(login: Option<string>) returns (ok: bool)
      modifies this
      ensures logins == old(logins) + 1
      ensures ok <==> login.Some?
      ensures token == if ok then login else old(token)
    {
      logins := logins + 1;
      if login.None? {
        return false;
      }
      token := login;
      ok := true;
    }

    /** get_headers(): logs in only while the token is falsy; a refused
        login raises "TVDB Authentication failed.". */
    method GetHeaders(login: Option<string>) returns (r: Result<string>)
      modifies this
      ensures Authed(old(token), old(logins), token, logins, login)
      ensures r.Err? <==> !CanAuth(old(token), login)
      ensures r.Err? ==> r.failure == AuthFailed && token == old(token)
      ensures r.Ok? ==> token.Some? && r.value == "Bearer " + token.value
      ensures Truthy(old(token)) ==> token == old(token) && logins == old(logins)
      ensures !Truthy(old(token)) ==> logins == old(logins) + 1
    {
      if !Truthy(token) {
        var ok := Authenticate(login);
        if !ok {
          return Err(AuthFailed);
        }
      }
      r := Ok("Bearer " + token.value);
    }
  }

  // ---------------------------------------------------------------------
  // TVDB's answers.

  /** A string field of a JSON object: missing, null, or a string. */
  datatype JsonStr = Absent | Null | Str(value: string)

  datatype SeriesRecord = SeriesRecord(name: JsonStr, firstAired: JsonStr)

  datatype EpisodeRecord = EpisodeRecord(seasonNumber: Option<int>, number: Option<int>, name: JsonStr)

  /** One OK page of the episodes query: its episodes and whether
      links.next is truthy. */
  datatype Page = Page(episodes: seq<EpisodeRecord>, hasNext: bool)

  /** TVDB's answers, fixed for the length of a run, by str(tvdb_id):
        series: the series record of an OK response;
        pages:  the OK pages 0, 1, … of the episodes query; the page after
                the last one listed answers with a response that is not OK. */
  datatype Provider = Provider(series: map<string, SeriesRecord>, pages: map<string, seq<Page>>)

  function PagesOf(p: Provider, key: Key): seq<Page> {
    if KeyStr(key) in p.pages then p.pages[KeyStr(key)] else []
  }

  // ---------------------------------------------------------------------
  // get_show_info

  /** data.get(field, default) followed by a str method: a null value has
      no such method and raises. */
  function Field(j: JsonStr, default: string): Result<string> {
    match j
    case Absent => Ok(default)
    case Null => Err(NullField)
    case Str(v) => Ok(v)
  }

  /** get_show_info(tvdb_id) after the headers: (None, None) for a response
      that is not OK, otherwise the name with colons replaced and the first
      four characters of the first air date, with their defaults. */
  function ShowInfo(p: Provider, key: Key): Result<Option<(string, string)>> {
    if KeyStr(key) !in p.series then Ok(None)
    else
      var rec := p.series[KeyStr(key)];
      match (Field(rec.name, "Unknown Title"), Field(rec.firstAired, "0000"))
      case (Ok(name), Ok(date)) => Ok(Some((SanitizeTitle(name), Take(date, 4))))
      case _ => Err(NullField)
  }

  /** A missing series gives (None, None), and a null name or air date
      raises. */
  lemma ShowInfoFails(p: Provider, key: Key)
    ensures ShowInfo(p, key) == Ok(None) <==> KeyStr(key) !in p.series
    ensures ShowInfo(p, key).Err? <==>
      KeyStr(key) in p.series && (p.series[KeyStr(key)].name.Null? || p.series[KeyStr(key)].firstAired.Null?)
    ensures ShowInfo(p, key).Err? ==> ShowInfo(p, key).failure == NullField
  {
  }

  /** Otherwise a missing name is "Unknown Title", and the title has no
      colon and keeps every other character. */
  lemma ShowInfoTitle(p: Provider, key: Key)
    requires ShowInfo(p, key).Ok? && ShowInfo(p, key).value.Some?
    ensures var name := p.series[KeyStr(key)].name;
      var title := ShowInfo(p, key).value.value.0;
      && ':' !in title
      && (name.Absent? ==> title == "Unknown Title")
      && (name.Str? ==> title == SanitizeTitle(name.value) && |title| == |name.value| + Count(name.value, ':'))
  {
    var rec := p.series[KeyStr(key)];
    var name := Field(rec.name, "Unknown Title").value;
    assert ShowInfo(p, key).value.value.0 == SanitizeTitle(name);
    if rec.name.Absent? {
      SanitizeColonFree("Unknown Title");
    }
  }

  /** A missing air date is "0000"; otherwise the year is its leading (at
      most four) characters. */
  lemma ShowInfoYear(p: Provider, key: Key)
    requires ShowInfo(p, key).Ok? && ShowInfo(p, key).value.Some?
    ensures var date := p.series[KeyStr(key)].firstAired;
      var year := ShowInfo(p, key).value.value.1;
      && (date.Absent? ==> year == "0000")
      && (date.Str? ==> StartsWith(date.value, year) && |year| == if |date.value| < 4 then |date.value| else 4)
  {
    var rec := p.series[KeyStr(key)];
    var date := Field(rec.firstAired, "0000").value;
    assert ShowInfo(p, key).value.value.1 == Take(date, 4);
  }

  /** A show the run lays out: a non-empty title and year. */
  datatype Resolved = Resolved(title: string, year: string)

  /** The lookup at the head of the show loop: Ok(None) when the title/year
      check sends the loop on to the next show. */
  function Resolve(p: Provider, key: Key): Result<Option<Resolved>> {
    match ShowInfo(p, key)
    case Err(f) => Err(f)
    case Ok(None) => Ok(None)
    case Ok(Some((title, year))) => if title == "" || year == "" then Ok(None) else Ok(Some(Resolved(title, year)))
  }

  /** A show is laid out exactly when TVDB has its series with a name and
      an air date that are not null and not empty (a missing one takes its
      default). */
  lemma ResolveSpec(p: Provider, key: Key)
    ensures Resolve(p, key).Err? <==> ShowInfo(p, key).Err?
    ensures (Resolve(p, key).Ok? && Resolve(p, key).value.Some?) <==>
      && KeyStr(key) in p.series
      && var rec := p.series[KeyStr(key)];
      && !rec.name.Null? && rec.name != Str("")
      && !rec.firstAired.Null? && rec.firstAired != Str("")
  {
    if KeyStr(key) in p.series {
      var rec := p.series[KeyStr(key)];
      if !rec.name.Null? && !rec.firstAired.Null? {
        var name, date := Field(rec.name, "Unknown Title").value, Field(rec.firstAired, "0000").value;
        assert ShowInfo(p, key) == Ok(Some((SanitizeTitle(name), Take(date, 4))));
        assert |SanitizeTitle(name)| >= |name|;
        assert name == "" <==> rec.name == Str("");
        assert date == "" <==> rec.firstAired == Str("");
      }
    }
  }

  /** Whether the show loop lays out the show rather than skipping it. */
  function Resolves(p: Provider): Key -> bool {
    k => Resolve(p, k).Ok? && Resolve(p, k).value.Some?
  }

  /** get_show_info(tvdb_id), headers first. */
  method GetShowInfo(s: Session, login: Option<string>, p: Provider, key: Key) returns (r: Result<Option<(string, string)>>)
    modifies s
    ensures Authed(old(s.token), old(s.logins), s.token, s.logins, login)
    ensures !CanAuth(old(s.token), login) ==> r == Err(AuthFailed)
    ensures CanAuth(old(s.token), login) ==> r == ShowInfo(p, key)
  {
    var h := s.GetHeaders(login);
    if h.Err? {
      return Err(h.failure);
    }
    r := ShowInfo(p, key);
  }

  // ---------------------------------------------------------------------
  // get_episode_titles

  /** str(ep.get("number")): "None" when the number is missing. */
  function EpKey(n: Option<int>): (k: string)
    ensures k != []
  {
    if n.Some? then IntToString(n.value) else "None"
  }

  /** An entry of the requested season whose name is null: .strip() raises. */
  predicate Raises(e: EpisodeRecord, season: int) {
    e.seasonNumber == Some(season) && e.name.Null?
  }

  /** An entry of the requested season whose stripped name is not empty. */
  predicate Kept(e: EpisodeRecord, season: int) {
    e.seasonNumber == Some(season) && e.name.Str? && Strip(e.name.value) != ""
  }

  /** One pass of the inner loop (lines 96-100) over the result so far. */
  function Absorb(m: map<string, string>, e: EpisodeRecord, season: int): Result<map<string, string>> {
    if e.seasonNumber != Some(season) then Ok(m)
    else match e.name
      case Null => Err(NullField)
      case Absent => Ok(m)
      case Str(v) => if Strip(v) == "" then Ok(m) else Ok(m[EpKey(e.number) := Strip(v)])
  }

  /** The inner loop over one page's episodes, from the result `acc` of the
      pages before it. */
  function PageTitles(eps: seq<EpisodeRecord>, season: int, acc: map<string, string>): Result<map<string, string>> {
    if eps == [] then Ok(acc)
    else match PageTitles(eps[..|eps| - 1], season, acc)
      case Err(f) => Err(f)
      case Ok(m) => Absorb(m, eps[|eps| - 1], season)
  }

  /** A page raises exactly when one of its entries of the season has a
      null name, and then the error is NullField. */
  lemma {:induction false} PageTitlesFails(eps: seq<EpisodeRecord>, season: int, acc: map<string, string>)
    ensures PageTitles(eps, season, acc).Err? <==> exists e :: e in eps && Raises(e, season)
    ensures PageTitles(eps, season, acc).Err? ==> PageTitles(eps, season, acc).failure == NullField
  {
    if eps != [] {
      var pre, last := eps[..|eps| - 1], eps[|eps| - 1];
      PageTitlesFails(pre, season, acc);
      assert eps == pre + [last];
      if PageTitles(pre, season, acc).Err? {
        var e :| e in pre && Raises(e, season);
        assert e in eps;
      } else if Raises(last, season) {
        assert last in eps;
      } else {
        forall e | e in eps ensures !Raises(e, season) {
          assert e in pre || e == last;
        }
      }
    }
  }

  /** The numbers of the kept entries of a season. */
  ghost function KeptKeys(eps: seq<EpisodeRecord>, season: int): set<string> {
    set e | e in eps && Kept(e, season) :: EpKey(e.number)
  }

  lemma KeptKeysLast(eps: seq<EpisodeRecord>, season: int)
    requires eps != []
    ensures var last := eps[|eps| - 1];
      KeptKeys(eps, season) == KeptKeys(eps[..|eps| - 1], season) + if Kept(last, season) then {EpKey(last.number)} else {}
  {
    var pre, last := eps[..|eps| - 1], eps[|eps| - 1];
    assert eps == pre + [last];
    assert forall e :: e in eps <==> e in pre || e == last;
  }

  /** The keys after a page: those before it and the numbers of the kept
      entries of the season. */
  lemma {:induction false} PageTitlesKeys(eps: seq<EpisodeRecord>, season: int, acc: map<string, string>)
    requires PageTitles(eps, season, acc).Ok?
    ensures PageTitles(eps, season, acc).value.Keys == acc.Keys + KeptKeys(eps, season)
  {
    if eps != [] {
      var pre := eps[..|eps| - 1];
      PageTitlesKeys(pre, season, acc);
      KeptKeysLast(eps, season);
    }
  }

  /** Every stored title is a stripped, non-empty name: a kept entry's
      name, unless no kept entry has that number and it came from `acc`. */
  lemma {:induction false} PageTitlesValues(eps: seq<EpisodeRecord>, season: int, acc: map<string, string>, k: string)
    requires PageTitles(eps, season, acc).Ok? && k in PageTitles(eps, season, acc).value
    ensures var v := PageTitles(eps, season, acc).value[k];
      || (k in acc && v == acc[k])
      || exists i :: 0 <= i < |eps| && Kept(eps[i], season) && EpKey(eps[i].number) == k && v == Strip(eps[i].name.value)
  {
    if eps != [] {
      var n := |eps| - 1;
      var pre := eps[..n];
      var m := PageTitles(pre, season, acc).value;
      if Kept(eps[n], season) && EpKey(eps[n].number) == k {
      } else {
        PageTitlesValues(pre, season, acc, k);
        assert forall i :: 0 <= i < n ==> pre[i] == eps[i];
      }
    }
  }

  /** A later entry with the same number overwrites an earlier one. */
  lemma {:induction false} PageTitlesLastWins(eps: seq<EpisodeRecord>, season: int, acc: map<string, string>, i: int)
    requires 0 <= i < |eps| && Kept(eps[i], season)
    requires forall j :: i < j < |eps| && Kept(eps[j], season) ==> EpKey(eps[j].number) != EpKey(eps[i].number)
    requires PageTitles(eps, season, acc).Ok?
    ensures EpKey(eps[i].number) in PageTitles(eps, season, acc).value
    ensures PageTitles(eps, season, acc).value[EpKey(eps[i].number)] == Strip(eps[i].name.value)
  {
    var n := |eps| - 1;
    var pre := eps[..n];
    if i < n {
      assert pre[i] == eps[i];
      forall j | i < j < |pre| && Kept(pre[j], season) ensures EpKey(pre[j].number) != EpKey(pre[i].number) {
        assert pre[j] == eps[j];
      }
      PageTitlesLastWins(pre, season, acc, i);
    }
  }

  /** The inner loop itself (lines 95-100), as it updates `result`. */
  method MergePage(acc: map<string, string>, eps: seq<EpisodeRecord>, season: int) returns (r: Result<map<string, string>>)
    ensures r == PageTitles(eps, season, acc)
  {
    var m := acc;
    for i := 0 to |eps|
      invariant PageTitles(eps[..i], season, acc) == Ok(m)
    {
      var e := eps[i];
      assert eps[..i + 1][..i] == eps[..i];
      if e.seasonNumber == Some(season) {
        match e.name
        case Null =>
          assert e in eps;
          PageTitlesFails(eps, season, acc);
          return Err(NullField);
        case Absent =>
        case Str(v) =>
          var t := Strip(v);
          if t != "" {
            m := m[EpKey(e.number) := t];
          }
      }
    }
    assert eps[..|eps|] == eps;
    r := Ok(m);
  }

  /** Whether a page raises, whatever came before it. */
  predicate PageFails(eps: seq<EpisodeRecord>, season: int) {
    exists e :: e in eps && Raises(e, season)
  }

  /** The page loop from page `page` on, with `acc` gathered so far: stop at
      the first page that is not OK or has no next link. */
  function Collect(pages: seq<Page>, season: int, page: nat, acc: map<string, string>): Result<map<string, string>>
    decreases |pages| - page
  {
    if page >= |pages| then Ok(acc)
    else match PageTitles(pages[page].episodes, season, acc)
      case Err(f) => Err(f)
      case Ok(m) => if pages[page].hasNext then Collect(pages, season, page + 1, m) else Ok(m)
  }

  /** get_episode_titles(tvdb_id, season) as a value. */
  function SeasonTitles(p: Provider, key: Key, season: int): Result<map<string, string>> {
    Collect(PagesOf(p, key), season, 0, map[])
  }

  /** The page loop raises only because an entry of the season has a null
      name, on a page it reaches: every page before it raised nothing and
      had a next link. */
  lemma {:induction false} CollectFails(pages: seq<Page>, season: int, page: nat, acc: map<string, string>)
    requires Collect(pages, season, page, acc).Err?
    ensures Collect(pages, season, page, acc).failure == NullField
    ensures exists j :: && page <= j < |pages| && PageFails(pages[j].episodes, season)
                        && forall i :: page <= i < j ==> pages[i].hasNext && !PageFails(pages[i].episodes, season)
    decreases |pages| - page
  {
    PageTitlesFails(pages[page].episodes, season, acc);
    match PageTitles(pages[page].episodes, season, acc)
    case Err(_) =>
    case Ok(m) =>
      CollectFails(pages, season, page + 1, m);
      var j :| && page + 1 <= j < |pages| && PageFails(pages[j].episodes, season)
               && forall i :: page + 1 <= i < j ==> pages[i].hasNext && !PageFails(pages[i].episodes, season);
      assert forall i :: page <= i < j ==> pages[i].hasNext && !PageFails(pages[i].episodes, season);
  }

  /** How many requests the page loop makes from page `page` on: it
      always asks for `page`, and goes on only after an OK page with a
      next link that raised nothing. */
  function Requested(pages: seq<Page>, season: int, page: nat): (n: nat)
    ensures n >= 1
    decreases |pages| - page
  {
    if page >= |pages| || PageFails(pages[page].episodes, season) || !pages[page].hasNext then 1
    else 1 + Requested(pages, season, page + 1)
  }

  /** Every page requested before the last one was OK, raised nothing and
      had a next link: nothing is requested after a page without one. */
  lemma {:induction false} RequestedStops(pages: seq<Page>, season: int, page: nat, k: nat)
    requires page <= k < page + Requested(pages, season, page) - 1
    ensures k < |pages| && pages[k].hasNext && !PageFails(pages[k].episodes, season)
    decreases |pages| - page
  {
    if k > page {
      RequestedStops(pages, season, page + 1, k);
    }
  }

  /** Pages after the first page without a next link play no part. */
  lemma {:induction false} CollectStops(pages: seq<Page>, season: int, page: nat, acc: map<string, string>, j: int)
    requires page <= j < |pages| && !pages[j].hasNext
    ensures Collect(pages, season, page, acc) == Collect(pages[..j + 1], season, page, acc)
    decreases |pages| - page
  {
    assert pages[..j + 1][page] == pages[page];
    if page < j {
      match PageTitles(pages[page].episodes, season, acc)
      case Err(_) =>
      case Ok(m) =>
        if pages[page].hasNext {
          CollectStops(pages, season, page + 1, m, j);
        }
    }
  }

  /** The titles gathered from page `page` on come from entries of the
      requested season with a non-empty stripped name, or from `acc`. */
  lemma {:induction false} CollectFromSeason(pages: seq<Page>, season: int, page: nat, acc: map<string, string>, k: string)
    requires Collect(pages, season, page, acc).Ok? && k in Collect(pages, season, page, acc).value
    ensures var v := Collect(pages, season, page, acc).value[k];
      || (k in acc && v == acc[k])
      || exists j, e :: page <= j < |pages| && e in pages[j].episodes && Kept(e, season) && EpKey(e.number) == k
                        && v == Strip(e.name.value)
    decreases |pages| - page
  {
    if page < |pages| {
      var eps := pages[page].episodes;
      var m := PageTitles(eps, season, acc).value;
      var v := Collect(pages, season, page, acc).value[k];
      if pages[page].hasNext {
        CollectFromSeason(pages, season, page + 1, m, k);
      }
      if k in m && v == m[k] {
        PageTitlesValues(eps, season, acc, k);
        if !(k in acc && v == acc[k]) {
          var i :| 0 <= i < |eps| && Kept(eps[i], season) && EpKey(eps[i].number) == k && v == Strip(eps[i].name.value);
          assert eps[i] in pages[page].episodes;
        }
      }
    }
  }

  /** get_episode_titles(tvdb_id, season): asks for pages 0, 1, 2, … with
      fresh headers each time, merging each OK page into the result. */
  method GetEpisodeTitles(s: Session, login: Option<string>, p: Provider, key: Key, season: int)
    returns (r: Result<map<string, string>>, ghost requested: seq<nat>)
    modifies s
    ensures Authed(old(s.token), old(s.logins), s.token, s.logins, login)
    ensures !CanAuth(old(s.token), login) ==> r == Err(AuthFailed) && requested == []
    ensures CanAuth(old(s.token), login) ==>
      && r == SeasonTitles(p, key, season)
      && |requested| == Requested(PagesOf(p, key), season, 0)
      && forall k :: 0 <= k < |requested| ==> requested[k] == k
  {
    var pages := PagesOf(p, key);
    ghost var t0, n0 := s.token, s.logins;
    var result: map<string, string> := map[];
    var page: nat := 0;
    requested := [];
    while true
      invariant page <= |pages|
      invariant Authed(t0, n0, s.token, s.logins, login)
      invariant page > 0 ==> CanAuth(t0, login)
      invariant Collect(pages, season, page, result) == SeasonTitles(p, key, season)
      invariant page + Requested(pages, season, page) == Requested(pages, season, 0)
      invariant |requested| == page && forall k :: 0 <= k < page ==> requested[k] == k
      decreases |pages| - page
    {
      ghost var t1, n1 := s.token, s.logins;
      var h := s.GetHeaders(login);
      AuthedChain(t0, n0, t1, n1, s.token, s.logins, login);
      AuthedCanAuth(t0, n0, t1, n1, login);
      if h.Err? {
        return Err(AuthFailed), requested;
      }
      requested := requested + [page];
      if page >= |pages| {
        break;
      }
      var pg := pages[page];
      var merged := MergePage(result, pg.episodes, season);
      PageTitlesFails(pg.episodes, season, result);
      if merged.Err? {
        return merged, requested;
      }
      result := merged.value;
      if !pg.hasNext {
        break;
      }
      page := page + 1;
    }
    r := Ok(result);
  }
}
