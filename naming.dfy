/** The destination names both downloaders derive from show title, year,
    season and episode numbers (the f-strings of process_yaml). */
module Naming {
  import opened PyStr
  import opened Manifest

  /** name.replace(":", " -") — keeps titles usable as folder names. */
  function SanitizeTitle(name: string): (r: string)
    ensures ':' !in r
    ensures |r| == |name| + Count(name, ':')
  {
    if name == [] then []
    else (if name[0] == ':' then " -" else [name[0]]) + SanitizeTitle(name[1..])
  }

  /** A title without colons is used as it is. */
  lemma {:induction false} SanitizeColonFree(name: string)
    requires ':' !in name
    ensures SanitizeTitle(name) == name
  {
    if name != [] {
      SanitizeColonFree(name[1..]);
    }
  }

  /** Sanitising works character by character: the two halves of a title
      are sanitised on their own. */
  lemma {:induction false} SanitizeAppend(a: string, b: string)
    ensures SanitizeTitle(a + b) == SanitizeTitle(a) + SanitizeTitle(b)
  {
    if a == [] {
      assert a + b == b;
    } else {
      assert (a + b)[0] == a[0] && (a + b)[1..] == a[1..] + b;
      SanitizeAppend(a[1..], b);
    }
  }

  /** Each ':' of a title becomes " -" where it stands, and every other
      character is kept there. */
  lemma SanitizeReplaces(a: string, c: char, b: string)
    ensures SanitizeTitle(a + [c] + b) == SanitizeTitle(a) + (if c == ':' then " -" else [c]) + SanitizeTitle(b)
  {
    var m := if c == ':' then " -" else [c];
    assert SanitizeTitle([c]) == m by {
      assert [c][0] == c && [c][1..] == [];
      assert m + [] == m;
    }
    calc {
      SanitizeTitle(a + [c] + b);
      { SanitizeAppend(a + [c], b); }
      SanitizeTitle(a + [c]) + SanitizeTitle(b);
      { SanitizeAppend(a, [c]); }
      SanitizeTitle(a) + m + SanitizeTitle(b);
    }
  }

  /** Sanitising twice changes nothing more. */
  lemma SanitizeIdempotent(name: string)
    ensures SanitizeTitle(SanitizeTitle(name)) == SanitizeTitle(name)
  {
    SanitizeColonFree(SanitizeTitle(name));
  }

  /** f"{title} ({year})": the show folder, and the stem of every episode file. */
  function ShowFolderName(title: string, year: string): string {
    title + " (" + year + ")"
  }

  /** os.path.splitext(url)[1] or ".jpg" */
  function ArtExtension(url: string): (ext: string)
    ensures ext != [] && ext[0] == '.' && '/' !in ext
    ensures SplitExt(url).1 == [] ==> ext == ".jpg"
    ensures SplitExt(url).1 != [] ==> url == SplitExt(url).0 + ext
  {
    var e := SplitExt(url).1;
    if e == [] then ".jpg" else e
  }

  /** The converse: a URL whose last path component has a character
      other than '.' before its last dot keeps its own suffix, so
      ".../poster.png" is saved as a ".png". */
  lemma ArtExtensionOfSuffix(d: string, s: string, e: string)
    requires d == [] || d[|d| - 1] == '/'
    requires '/' !in s && '/' !in e && '.' !in e
    requires exists i :: 0 <= i < |s| && s[i] != '.'
    ensures ArtExtension(d + s + "." + e) == "." + e
  {
    SplitExtOfSuffix(d, s, e);
  }

  /** No season folder name "Season …" is "Specials". */
  lemma NotSpecials(d: string)
    ensures "Season " + d != "Specials"
  {
    assert ("Season " + d)[1] == 'e';
    assert "Specials"[1] == 'p';
  }

  /** f"specials{ext}" for season "0", otherwise f"season{int(season_num):02}{ext}";
      None stands for the ValueError of int(). */
  function SeasonPosterName(season: Key, ext: string): Option<string> {
    if KeyStr(season) == "0" then Some("specials" + ext)
    else match KeyInt(season)
      case Some(n) => Some("season" + Pad2(n) + ext)
      case None => None
  }

  /** f"{int(season_num):02}E{int(episode_num):02} - {ep_title}": the part
      of an episode file name that tells episodes apart. */
  function EpisodeCode(s: int, e: int, epTitle: string): string {
    Pad2(s) + "E" + Pad2(e) + " - " + epTitle
  }

  /** f"{title} ({year}) - S{int(season_num):02}E{int(episode_num):02} - {ep_title}.jpg" */
  function EpisodeFileName(title: string, year: string, season: Key, episode: Key, epTitle: string): Option<string> {
    match (KeyInt(season), KeyInt(episode))
    case (Some(s), Some(e)) => Some(ShowFolderName(title, year) + " - S" + EpisodeCode(s, e, epTitle) + ".jpg")
    case _ => None
  }

  /** The season poster is missing exactly when int() rejects the key. */
  lemma SeasonPosterFails(season: Key, ext: string)
    ensures SeasonPosterName(season, ext).None? <==> KeyInt(season).None?
  {
    if KeyStr(season) == "0" {
      SpecialsKeyIsZero(season);
    }
  }

  /** The season poster is "specials…" exactly for a key that prints as "0". */
  lemma SeasonPosterSpecials(season: Key, ext: string)
    ensures KeyStr(season) == "0" <==> SeasonPosterName(season, ext) == Some("specials" + ext)
  {
    if KeyStr(season) != "0" && KeyInt(season).Some? {
      PosterNotSpecials(Pad2(KeyInt(season).value), ext);
    }
  }

  /** No numbered poster "season…" is "specials…". */
  lemma PosterNotSpecials(d: string, ext: string)
    ensures "season" + d + ext != "specials" + ext
  {
    assert ("season" + d + ext)[1] == 'e';
    assert ("specials" + ext)[1] == 'p';
  }

  /** Any other key gives "season", then the key's integer value as a
      sign or digit followed by digits, zero-padded to two characters and
      otherwise as wide as str() writes it, then ext. */
  lemma SeasonPosterNumbered(season: Key, ext: string)
    requires KeyStr(season) != "0" && KeyInt(season).Some?
    ensures var n := KeyInt(season).value;
      exists d :: && SeasonPosterName(season, ext) == Some("season" + d + ext)
                  && |d| >= 2 && ParseInt(d) == Some(n)
                  && (d[0] == '-' || IsDigit(d[0])) && AllDigits(d[1..])
                  && |d| == if 0 <= n < 10 then 2 else |IntToString(n)|
  {
    var n := KeyInt(season).value;
    var d := Pad2(n);
    Pad2RoundTrip(n);
    Pad2Shape(n);
    assert SeasonPosterName(season, ext) == Some("season" + d + ext);
  }

  /** An episode file name is a .jpg whose name starts with the show
      folder name followed by " - S". */
  lemma EpisodeFileNameShape(title: string, year: string, season: Key, episode: Key, epTitle: string)
    requires EpisodeFileName(title, year, season, episode, epTitle).Some?
    ensures var f := EpisodeFileName(title, year, season, episode, epTitle).value;
      StartsWith(f, ShowFolderName(title, year) + " - S") && |f| >= 4 && f[|f| - 4..] == ".jpg"
  {
    var s, e := KeyInt(season).value, KeyInt(episode).value;
    assert EpisodeFileName(title, year, season, episode, epTitle).value
        == ShowFolderName(title, year) + " - S" + EpisodeCode(s, e, epTitle) + ".jpg";
    JpgShape(ShowFolderName(title, year) + " - S", EpisodeCode(s, e, epTitle));
  }

  /** x, then anything, then ".jpg" starts with x and ends in ".jpg". */
  lemma JpgShape(x: string, middle: string)
    ensures var f := x + middle + ".jpg";
      StartsWith(f, x) && |f| >= 4 && f[|f| - 4..] == ".jpg"
  {
    var body := x + middle;
    Concat(body, ".jpg");
    Concat(x, middle);
    assert (body + ".jpg")[..|x|] == (body + ".jpg")[..|body|][..|x|];
  }

  /** A concatenation splits back into its two parts. */
  lemma Concat(a: string, b: string)
    ensures (a + b)[..|a|] == a && (a + b)[|a|..] == b
  {
  }

  /** Cutting two strings at the first occurrence of a character that the
      leading parts do not contain recovers the parts. */
  lemma SplitAtFirst(x: string, y: string, x': string, y': string, c: char)
    requires c !in x && c !in x'
    requires x + [c] + y == x' + [c] + y'
    ensures x == x' && y == y'
  {
    var s := x + [c] + y;
    assert s[|x|] == c;
    assert (x' + [c] + y')[|x'|] == c;
    assert |x| == |x'|;
    assert x == s[..|x|] == x';
    assert y == s[|x| + 1..] == y';
  }

  lemma NoCharInPad2(n: int, c: char)
    requires c != '-' && !IsDigit(c)
    ensures c !in Pad2(n)
  {
    Pad2Shape(n);
    var p := Pad2(n);
    assert forall i :: 1 <= i < |p| ==> p[i] == p[1..][i - 1];
  }

  /** The episode code determines the two numbers and the episode title. */
  lemma EpisodeCodeInjective(s1: int, e1: int, t1: string, s2: int, e2: int, t2: string)
    requires EpisodeCode(s1, e1, t1) == EpisodeCode(s2, e2, t2)
    ensures s1 == s2 && e1 == e2 && t1 == t2
  {
    var a1, b1, a2, b2 := Pad2(s1), Pad2(e1), Pad2(s2), Pad2(e2);
    NoCharInPad2(s1, 'E');
    NoCharInPad2(s2, 'E');
    NoCharInPad2(e1, ' ');
    NoCharInPad2(e2, ' ');
    var m1 := "- " + t1;
    var m2 := "- " + t2;
    assert a1 + ['E'] + (b1 + [' '] + m1) == EpisodeCode(s1, e1, t1);
    assert a2 + ['E'] + (b2 + [' '] + m2) == EpisodeCode(s2, e2, t2);
    SplitAtFirst(a1, b1 + [' '] + m1, a2, b2 + [' '] + m2, 'E');
    SplitAtFirst(b1, m1, b2, m2, ' ');
    assert t1 == m1[2..] && t2 == m2[2..];
    Pad2Injective(s1, s2);
    Pad2Injective(e1, e2);
  }

  /** Within one show, two episode files share a name only when season,
      episode number and episode title all agree: the layout never makes
      two different episodes collide. */
  lemma EpisodeFileNameInjective(title: string, year: string,
                                 s1: Key, e1: Key, t1: string,
                                 s2: Key, e2: Key, t2: string)
    requires EpisodeFileName(title, year, s1, e1, t1).Some?
    requires EpisodeFileName(title, year, s1, e1, t1) == EpisodeFileName(title, year, s2, e2, t2)
    ensures KeyInt(s1) == KeyInt(s2) && KeyInt(e1) == KeyInt(e2) && t1 == t2
  {
    var x := ShowFolderName(title, year) + " - S";
    var c1 := EpisodeCode(KeyInt(s1).value, KeyInt(e1).value, t1);
    var c2 := EpisodeCode(KeyInt(s2).value, KeyInt(e2).value, t2);
    var f := x + c1 + ".jpg";
    assert f == x + c2 + ".jpg";
    Concat(x + c1, ".jpg");
    Concat(x + c2, ".jpg");
    Concat(x, c1);
    Concat(x, c2);
    EpisodeCodeInjective(KeyInt(s1).value, KeyInt(e1).value, t1, KeyInt(s2).value, KeyInt(e2).value, t2);
  }
}
