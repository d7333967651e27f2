/**
 * The playlist provider: the curated three-item lists returned when no
 * catalog client is configured, and the search term chosen when one is.
 */
module Playlists {
  import opened Signals
  import opened Mood

  datatype Playlist = Playlist(name: string, url: string, image: Option<string>)

  // The lists of `sample_playlists_hi`.

  const HindiHappy: seq<Playlist> := [
    Playlist("Bollywood Happy Hits", SpotifyPlaylist("37i9dQZF1DX2taZN6Kf4K1"), Some("https://via.placeholder.com/300x300/FFD700/000000?text=Bollywood+Happy")),
    Playlist("Top Bollywood", SpotifyPlaylist("37i9dQZF1DXcZ6X5YK6xG6"), Some("https://via.placeholder.com/300x300/FF6B9D/000000?text=Top+Bollywood")),
    Playlist("Bollywood Retro", SpotifyPlaylist("37i9dQZF1DX2yvmlOdMYzV"), Some("https://via.placeholder.com/300x300/00D4FF/000000?text=Bollywood+Retro"))
  ]

  const HindiSad: seq<Playlist> := [
    Playlist("Bollywood Sad", SpotifyPlaylist("37i9dQZF1DWSf2RDTDayIx"), Some("https://via.placeholder.com/300x300/4169E1/FFFFFF?text=Bollywood+Sad")),
    Playlist("Sad Bollywood", SpotifyPlaylist("37i9dQZF1DX7qK8ma5wgG1"), Some("https://via.placeholder.com/300x300/708090/FFFFFF?text=Sad+Bollywood")),
    Playlist("Melancholic Bollywood", SpotifyPlaylist("37i9dQZF1DWX83CujKHHOn"), Some("https://via.placeholder.com/300x300/2F4F4F/FFFFFF?text=Melancholy+Bollywood"))
  ]

  const HindiChill: seq<Playlist> := [
    Playlist("Bollywood Mellow", SpotifyPlaylist("37i9dQZF1DX889U0CL85jj"), Some("https://via.placeholder.com/300x300/9370DB/000000?text=Bollywood+Chill")),
    Playlist("Indie Hindi Chill", SpotifyPlaylist("37i9dQZF1DWWQRwui0ExPn"), Some("https://via.placeholder.com/300x300/BA55D3/000000?text=Indie+Hindi")),
    Playlist("Romantic Bollywood", SpotifyPlaylist("37i9dQZF1DX50QitC6Oqtn"), Some("https://via.placeholder.com/300x300/FF1493/FFFFFF?text=Romantic+Bollywood"))
  ]

  // The lists of `sample_playlists`.

  const EnglishHappy: seq<Playlist> := [
    Playlist("Happy Hits", SpotifyPlaylist("37i9dQZF1DXdPec7aLTmlC"), Some("https://via.placeholder.com/300x300/FFD700/000000?text=Happy+Hits")),
    Playlist("Feel Good Indie", SpotifyPlaylist("37i9dQZF1DX2sUQwD7tbmL"), Some("https://via.placeholder.com/300x300/FF6B9D/000000?text=Feel+Good")),
    Playlist("Mood Booster", SpotifyPlaylist("37i9dQZF1DX3rxVfibe1L0"), Some("https://via.placeholder.com/300x300/00D4FF/000000?text=Mood+Booster"))
  ]

  const EnglishSad: seq<Playlist> := [
    Playlist("Life Sucks", SpotifyPlaylist("37i9dQZF1DX7qK8ma5wgG1"), Some("https://via.placeholder.com/300x300/4169E1/FFFFFF?text=Sad+Songs")),
    Playlist("Sad Indie", SpotifyPlaylist("37i9dQZF1DX59NCqCqJtoH"), Some("https://via.placeholder.com/300x300/708090/FFFFFF?text=Sad+Indie")),
    Playlist("Melancholy", SpotifyPlaylist("37i9dQZF1DWX83CujKHHOn"), Some("https://via.placeholder.com/300x300/2F4F4F/FFFFFF?text=Melancholy"))
  ]

  const EnglishEnergetic: seq<Playlist> := [
    Playlist("Beast Mode", SpotifyPlaylist("37i9dQZF1DX76Wlfdnj7AP"), Some("https://via.placeholder.com/300x300/FF4500/000000?text=Beast+Mode")),
    Playlist("Power Workout", SpotifyPlaylist("37i9dQZF1DX70RN3TfWWJh"), Some("https://via.placeholder.com/300x300/DC143C/000000?text=Power+Workout")),
    Playlist("Adrenaline", SpotifyPlaylist("37i9dQZF1DX0pH2SQMRXnC"), Some("https://via.placeholder.com/300x300/8B0000/FFFFFF?text=Adrenaline"))
  ]

  const EnglishCalm: seq<Playlist> := [
    Playlist("Peaceful Piano", SpotifyPlaylist("37i9dQZF1DX4sWSpwq3LiO"), Some("https://via.placeholder.com/300x300/87CEEB/000000?text=Peaceful+Piano")),
    Playlist("Calm Vibes", SpotifyPlaylist("37i9dQZF1DWU0ScTcjJBdj"), Some("https://via.placeholder.com/300x300/ADD8E6/000000?text=Calm+Vibes")),
    Playlist("Relaxing Sounds", SpotifyPlaylist("37i9dQZF1DWZd79rJ6a7lp"), Some("https://via.placeholder.com/300x300/B0E0E6/000000?text=Relaxing"))
  ]

  const EnglishExcited: seq<Playlist> := [
    Playlist("Party Time", SpotifyPlaylist("37i9dQZF1DXaXB8fQg7xif"), Some("https://via.placeholder.com/300x300/FF1493/000000?text=Party+Time")),
    Playlist("Dance Party", SpotifyPlaylist("37i9dQZF1DX4dyzvuaRJ0n"), Some("https://via.placeholder.com/300x300/FF69B4/000000?text=Dance+Party")),
    Playlist("Energy Boost", SpotifyPlaylist("37i9dQZF1DX3Sp0P28SIer"), Some("https://via.placeholder.com/300x300/FFB6C1/000000?text=Energy+Boost"))
  ]

  const EnglishChill: seq<Playlist> := [
    Playlist("Chill Hits", SpotifyPlaylist("37i9dQZF1DX4WYpdgoIcn6"), Some("https://via.placeholder.com/300x300/9370DB/000000?text=Chill+Hits")),
    Playlist("Lofi Beats", SpotifyPlaylist("37i9dQZF1DWWQRwui0ExPn"), Some("https://via.placeholder.com/300x300/BA55D3/000000?text=Lofi+Beats")),
    Playlist("Chill Vibes", SpotifyPlaylist("37i9dQZF1DX889U0CL85jj"), Some("https://via.placeholder.com/300x300/DDA0DD/000000?text=Chill+Vibes"))
  ]

  const EnglishRomantic: seq<Playlist> := [
    Playlist("Romantic", SpotifyPlaylist("37i9dQZF1DX50QitC6Oqtn"), Some("https://via.placeholder.com/300x300/FF1493/FFFFFF?text=Romantic")),
    Playlist("Love Songs", SpotifyPlaylist("37i9dQZF1DX0UrRvztWcAU"), Some("https://via.placeholder.com/300x300/FF69B4/FFFFFF?text=Love+Songs")),
    Playlist("Date Night", SpotifyPlaylist("37i9dQZF1DX4OzrY981I1W"), Some("https://via.placeholder.com/300x300/FFB6C1/000000?text=Date+Night"))
  ]

  const EnglishDark: seq<Playlist> := [
    Playlist("Dark & Stormy", SpotifyPlaylist("37i9dQZF1DX0XUfTFmNBRM"), Some("https://via.placeholder.com/300x300/2F4F4F/FFFFFF?text=Dark")),
    Playlist("Metal", SpotifyPlaylist("37i9dQZF1DWWOaP4H0w5b0"), Some("https://via.placeholder.com/300x300/000000/FFFFFF?text=Metal")),
    Playlist("Rock Hard", SpotifyPlaylist("37i9dQZF1DWXRqgorJj26U"), Some("https://via.placeholder.com/300x300/1C1C1C/FFFFFF?text=Rock+Hard"))
  ]

  /** `sample_playlists_hi`. */
  const HindiPlaylists: map<string, seq<Playlist>> := map[
    "happy" := HindiHappy,
    "sad" := HindiSad,
    "chill" := HindiChill
  ]

  /** `sample_playlists`. */
  const EnglishPlaylists: map<string, seq<Playlist>> := map[
    "happy" := EnglishHappy,
    "sad" := EnglishSad,
    "energetic" := EnglishEnergetic,
    "calm" := EnglishCalm,
    "excited" := EnglishExcited,
    "chill" := EnglishChill,
    "romantic" := EnglishRomantic,
    "dark" := EnglishDark
  ]

  /** The static list of a mood in the language's table, or that table's chill list for a mood it lacks. */
  function OfflinePlaylists(mood: string, lang: Language): seq<Playlist> {
    if lang == Hi then
      if mood in HindiPlaylists then HindiPlaylists[mood] else HindiPlaylists["chill"]
    else
      if mood in EnglishPlaylists then EnglishPlaylists[mood] else EnglishPlaylists["chill"]
  }

  /** `search_queries`. */
  const SearchQueries: map<string, seq<string>> := map[
    "happy" := ["happy", "feel good", "uplifting"],
    "sad" := ["sad", "melancholy", "emotional"],
    "energetic" := ["workout", "energetic", "power"],
    "calm" := ["calm", "peaceful", "relaxing"],
    "excited" := ["party", "dance", "upbeat"],
    "chill" := ["chill", "lofi", "relax"],
    "romantic" := ["romantic", "love songs", "date night"],
    "dark" := ["dark", "intense", "heavy"]
  ]

  /** The first search term of the mood, or the mood itself when it has none. */
  function QueryTerm(mood: string): string {
    if mood in SearchQueries then SearchQueries[mood][0] else [mood][0]
  }

  /** The `limit` passed to the catalog search. */
  const SearchLimit: nat := 5

  /**
   * What get_spotify_playlists does: return a static list when no catalog
   * client is configured, or search the catalog for one query term.
   */
  datatype PlaylistSource =
    | Static(playlists: seq<Playlist>)
    | Search(query: string, limit: nat)

  function GetPlaylists(mood: string, lang: Language, online: bool): PlaylistSource {
    if !online then Static(OfflinePlaylists(mood, lang)) else Search(QueryTerm(mood), SearchLimit)
  }

  /** Every static entry has a name, an open.spotify.com playlist url and an image. */
  predicate WellFormedList(ps: seq<Playlist>) {
    && |ps| == 3
    && forall i :: 0 <= i < |ps| ==>
      && ps[i].name != ""
      && IsPlaylistUrl(ps[i].url)
      && ps[i].image.Some?
  }

  /** The url of a playlist on open.spotify.com, from its id. */
  function SpotifyPlaylist(id: string): string {
    PlaylistUrlPrefix + id
  }

  const PlaylistUrlPrefix: string := "https://open.spotify.com/playlist/"

  predicate IsPlaylistUrl(url: string) {
    |PlaylistUrlPrefix| < |url| && url[..|PlaylistUrlPrefix|] == PlaylistUrlPrefix
  }

  /** Every Hindi list is complete. */
  lemma HindiListsWellFormed()
    ensures WellFormedList(HindiHappy) && WellFormedList(HindiSad) && WellFormedList(HindiChill)
  {
    assert WellFormedList(HindiHappy);
    assert WellFormedList(HindiSad);
    assert WellFormedList(HindiChill);
  }

  /** The Hindi table has its own lists for happy, sad and chill only, three different ones. */
  lemma HindiTableShape()
    ensures HindiPlaylists.Keys == {"happy", "sad", "chill"}
    ensures forall m :: m in HindiPlaylists ==> WellFormedList(HindiPlaylists[m])
    ensures HindiPlaylists["happy"] != HindiPlaylists["chill"]
    ensures HindiPlaylists["sad"] != HindiPlaylists["chill"]
    ensures HindiPlaylists["happy"] != HindiPlaylists["sad"]
  {
    HindiListsWellFormed();
    assert HindiHappy[0].name != HindiSad[0].name;
    assert HindiHappy[0].name != HindiChill[0].name;
    assert HindiSad[0].name != HindiChill[0].name;
  }

  /** Every English list is complete. */
  lemma EnglishListsWellFormed()
    ensures forall m :: m in EnglishPlaylists ==> WellFormedList(EnglishPlaylists[m])
  {
    assert WellFormedList(EnglishHappy);
    assert WellFormedList(EnglishSad);
    assert WellFormedList(EnglishEnergetic);
    assert WellFormedList(EnglishCalm);
    assert WellFormedList(EnglishExcited);
    assert WellFormedList(EnglishChill);
    assert WellFormedList(EnglishRomantic);
    assert WellFormedList(EnglishDark);
  }

  /** No two moods share an English list: their first entries already differ. */
  lemma EnglishListsDistinct()
    ensures forall m1, m2 :: m1 in EnglishPlaylists && m2 in EnglishPlaylists && m1 != m2 ==>
      EnglishPlaylists[m1][0].name != EnglishPlaylists[m2][0].name
  {
    assert EnglishHappy[0].name != EnglishSad[0].name;
    assert EnglishHappy[0].name != EnglishEnergetic[0].name;
    assert EnglishHappy[0].name != EnglishCalm[0].name;
    assert EnglishHappy[0].name != EnglishExcited[0].name;
    assert EnglishHappy[0].name != EnglishChill[0].name;
    assert EnglishHappy[0].name != EnglishRomantic[0].name;
    assert EnglishHappy[0].name != EnglishDark[0].name;
    assert EnglishSad[0].name != EnglishEnergetic[0].name;
    assert EnglishSad[0].name != EnglishCalm[0].name;
    assert EnglishSad[0].name != EnglishExcited[0].name;
    assert EnglishSad[0].name != EnglishChill[0].name;
    assert EnglishSad[0].name != EnglishRomantic[0].name;
    assert EnglishSad[0].name != EnglishDark[0].name;
    assert EnglishEnergetic[0].name != EnglishCalm[0].name;
    assert EnglishEnergetic[0].name != EnglishExcited[0].name;
    assert EnglishEnergetic[0].name != EnglishChill[0].name;
    assert EnglishEnergetic[0].name != EnglishRomantic[0].name;
    assert EnglishEnergetic[0].name != EnglishDark[0].name;
    assert EnglishCalm[0].name != EnglishExcited[0].name;
    assert EnglishCalm[0].name != EnglishChill[0].name;
    assert EnglishCalm[0].name != EnglishRomantic[0].name;
    assert EnglishCalm[0].name != EnglishDark[0].name;
    assert EnglishExcited[0].name != EnglishChill[0].name;
    assert EnglishExcited[0].name != EnglishRomantic[0].name;
    assert EnglishExcited[0].name != EnglishDark[0].name;
    assert EnglishChill[0].name != EnglishRomantic[0].name;
    assert EnglishChill[0].name != EnglishDark[0].name;
    assert EnglishRomantic[0].name != EnglishDark[0].name;
  }

  /** The English table covers all eight moods, each with a complete list of its own. */
  lemma EnglishTableShape()
    ensures EnglishPlaylists.Keys == Moods
    ensures forall m :: m in EnglishPlaylists ==> WellFormedList(EnglishPlaylists[m])
    ensures forall m1, m2 :: m1 in EnglishPlaylists && m2 in EnglishPlaylists && m1 != m2 ==>
      EnglishPlaylists[m1][0].name != EnglishPlaylists[m2][0].name
  {
    EnglishListsWellFormed();
    EnglishListsDistinct();
  }

  /** Offline lookup always returns exactly three complete entries. */
  lemma OfflineAlwaysThree(mood: string, lang: Language)
    ensures WellFormedList(OfflinePlaylists(mood, lang))
  {
    HindiTableShape();
    EnglishTableShape();
  }

  /** Hindi: happy and sad have their own lists; every other mood gets the Hindi chill list. */
  lemma HindiFallsBackToChill(mood: string)
    ensures OfflinePlaylists(mood, Hi) ==
      HindiPlaylists[if mood == "happy" || mood == "sad" then mood else "chill"]
  {
    HindiTableShape();
  }

  /** English: each of the eight moods has its own list; any other mood gets the English chill list. */
  lemma EnglishCoversEveryMood(mood: string)
    ensures mood in Moods ==> OfflinePlaylists(mood, En) == EnglishPlaylists[mood]
    ensures mood !in Moods ==> OfflinePlaylists(mood, En) == EnglishPlaylists["chill"]
    ensures mood in Moods && mood != "chill" ==> OfflinePlaylists(mood, En) != OfflinePlaylists("chill", En)
  {
    EnglishTableShape();
  }

  /** The query term is the mood itself, except `workout` for energetic and `party` for excited. */
  lemma QueryTermChoice(mood: string)
    ensures QueryTerm(mood) == if mood == "energetic" then "workout" else if mood == "excited" then "party" else mood
  {
  }

  /** Online mode ignores the language: both languages search with the same term. */
  lemma OnlineIgnoresLanguage(mood: string)
    ensures GetPlaylists(mood, En, true) == GetPlaylists(mood, Hi, true) == Search(QueryTerm(mood), 5)
  {
  }
}
