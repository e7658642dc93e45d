/** The video-link parser behind the site's embedded players: which platform a pasted
    link belongs to and the player URL to embed for it. Each regular expression of the
    parser is a matcher at one position of the link, and `url.match(re)` is the capture
    at the leftmost position where the matcher succeeds. */
module VideoEmbedParser {
  import opened Common

  datatype Platform = YouTube | Bilibili | Generic

  datatype VideoEmbed = VideoEmbed(platform: Platform, embedUrl: string, originalUrl: string)

  // ---------------------------------------------------------------------------
  // Matching

  /** Whether `p` occurs in `s` starting at position `i`. */
  predicate PrefixAt(s: string, i: nat, p: string) {
    i + |p| <= |s| && s[i..i + |p|] == p
  }

  /** `\d` (ASCII digits, the regular expressions carry no Unicode flag). */
  predicate IsDigit(c: char) { '0' <= c <= '9' }

  /** `[a-zA-Z0-9]`. */
  predicate IsAlnum(c: char) { 'a' <= c <= 'z' || 'A' <= c <= 'Z' || IsDigit(c) }

  /** `[a-zA-Z0-9_-]`, the characters of a YouTube video id. */
  predicate IsIdChar(c: char) { IsAlnum(c) || c == '_' || c == '-' }

  predicate IsDigits(s: string) {
    |s| > 0 && forall k :: 0 <= k < |s| ==> IsDigit(s[k])
  }

  /** How many characters a greedy `[class]*` consumes from position `j`: the longest
      run of class characters there. */
  function Run(s: string, j: nat, cls: char -> bool): (n: nat)
    requires j <= |s|
    ensures j + n <= |s|
    ensures forall k :: j <= k < j + n ==> cls(s[k])
    ensures j + n == |s| || !cls(s[j + n])
    decreases |s| - j
  {
    if j < |s| && cls(s[j]) then 1 + Run(s, j + 1, cls) else 0
  }

  /** A regular expression tried at one position: the text of its capture group when it
      matches there. */
  type Matcher = (string, nat) -> Option<string>

  /** The capture of `m` at the leftmost position from `i` on where it matches. */
  function FirstMatch(m: Matcher, s: string, i: nat): Option<string>
    decreases |s| + 1 - i
  {
    if i > |s| then None
    else if m(s, i).Some? then m(s, i)
    else FirstMatch(m, s, i + 1)
  }

  /** Whether `m` matches anywhere in `s`. */
  predicate Occurs(m: Matcher, s: string) {
    exists k :: 0 <= k <= |s| && m(s, k).Some?
  }

  /** The search finds a match iff there is one, and the one it finds is the leftmost. */
  lemma {:induction false} FirstMatchIsLeftmost(m: Matcher, s: string, i: nat)
    ensures FirstMatch(m, s, i).None? <==> forall k :: i <= k <= |s| ==> m(s, k).None?
    ensures FirstMatch(m, s, i).Some? ==>
      exists k :: i <= k <= |s| && FirstMatch(m, s, i) == m(s, k) && forall j :: i <= j < k ==> m(s, j).None?
    decreases |s| + 1 - i
  {
    if i <= |s| && m(s, i).None? {
      FirstMatchIsLeftmost(m, s, i + 1);
      if FirstMatch(m, s, i + 1).Some? {
        var k :| i + 1 <= k <= |s| && FirstMatch(m, s, i + 1) == m(s, k) && forall j :: i + 1 <= j < k ==> m(s, j).None?;
        assert forall j :: i <= j < k ==> m(s, j).None?;
      }
    }
  }

  /** A match at `k` with none before it is the one the search returns. */
  lemma {:induction false} FirstMatchAt(m: Matcher, s: string, i: nat, k: nat)
    requires i <= k <= |s| && m(s, k).Some?
    requires forall j :: i <= j < k ==> m(s, j).None?
    ensures FirstMatch(m, s, i) == m(s, k)
    decreases k - i
  {
    if i < k {
      FirstMatchAt(m, s, i + 1, k);
    }
  }

  lemma PrefixAtContains(s: string, i: nat, p: string)
    ensures PrefixAt(s, i, p) ==> Contains(s, p)
  {
    if PrefixAt(s, i, p) {
      ContainsAt(s, p, i);
    }
  }

  lemma OccursIff(m: Matcher, s: string)
    ensures Occurs(m, s) <==> FirstMatch(m, s, 0).Some?
  {
    FirstMatchIsLeftmost(m, s, 0);
  }

  // ---------------------------------------------------------------------------
  // The three patterns

  /** The alternatives of the YouTube pattern, in the order the pattern tries them. */
  const YoutubePrefixes: seq<string> := ["youtube.com/watch?v=", "youtu.be/", "youtube.com/embed/", "youtube.com/live/"]
  const YoutubeIdLength: nat := 11

  /** Whether `[a-zA-Z0-9_-]{11}` matches at `j`. */
  predicate IdAt(s: string, j: nat) {
    j + YoutubeIdLength <= |s| && forall k :: j <= k < j + YoutubeIdLength ==> IsIdChar(s[k])
  }

  /** The YouTube pattern at `i`, trying the alternatives from the `a`-th on. */
  function YoutubeFrom(s: string, i: nat, a: nat): Option<string>
    decreases |YoutubePrefixes| - a
  {
    if a >= |YoutubePrefixes| then None
    else
      var j := i + |YoutubePrefixes[a]|;
      if PrefixAt(s, i, YoutubePrefixes[a]) && IdAt(s, j) then Some(s[j..j + YoutubeIdLength])
      else YoutubeFrom(s, i, a + 1)
  }

  function YoutubeAt(s: string, i: nat): Option<string> {
    YoutubeFrom(s, i, 0)
  }

  /** The YouTube pattern matches at `i` iff one of its prefixes stands there followed by
      11 id characters, and it captures those 11 characters. */
  lemma {:induction false} YoutubeFromMeaning(s: string, i: nat, a: nat)
    ensures YoutubeFrom(s, i, a).Some? <==>
      exists b :: a <= b < |YoutubePrefixes| && PrefixAt(s, i, YoutubePrefixes[b]) && IdAt(s, i + |YoutubePrefixes[b]|)
    ensures YoutubeFrom(s, i, a).Some? ==>
      exists b :: a <= b < |YoutubePrefixes| && PrefixAt(s, i, YoutubePrefixes[b]) && IdAt(s, i + |YoutubePrefixes[b]|) &&
        YoutubeFrom(s, i, a).value == s[i + |YoutubePrefixes[b]|..i + |YoutubePrefixes[b]| + YoutubeIdLength]
    decreases |YoutubePrefixes| - a
  {
    if a < |YoutubePrefixes| {
      YoutubeFromMeaning(s, i, a + 1);
    }
  }

  /** Every alternative starts with 'y'. */
  lemma YoutubeStartsWithY(s: string, i: nat)
    requires YoutubeAt(s, i).Some?
    ensures i < |s| && s[i] == 'y'
  {
    YoutubeFromMeaning(s, i, 0);
    var b :| 0 <= b < |YoutubePrefixes| && PrefixAt(s, i, YoutubePrefixes[b]) && IdAt(s, i + |YoutubePrefixes[b]|);
    assert s[i] == s[i..i + |YoutubePrefixes[b]|][0];
  }

  const VideoPath := "bilibili.com/video/"
  const LivePath := "live.bilibili.com/"

  /** A Bilibili video id: "BV" and one or more letters or digits. */
  predicate IsBvid(id: string) {
    |id| > 2 && id[..2] == "BV" && forall k :: 2 <= k < |id| ==> IsAlnum(id[k])
  }

  /** The Bilibili video pattern at `i`: the path, then "BV" and a greedy run of letters
      and digits, or else "av" and a greedy run of digits. */
  function BilibiliVideoAt(s: string, i: nat): Option<string> {
    if !PrefixAt(s, i, VideoPath) then None
    else
      var j := i + |VideoPath|;
      if PrefixAt(s, j, "BV") && Run(s, j + 2, IsAlnum) > 0 then Some(s[j..j + 2 + Run(s, j + 2, IsAlnum)])
      else if PrefixAt(s, j, "av") && Run(s, j + 2, IsDigit) > 0 then Some(s[j..j + 2 + Run(s, j + 2, IsDigit)])
      else None
  }

  /** The Bilibili live pattern at `i`: the path, then a greedy run of digits. */
  function LiveAt(s: string, i: nat): Option<string> {
    if PrefixAt(s, i, LivePath) && Run(s, i + |LivePath|, IsDigit) > 0 then
      Some(s[i + |LivePath|..i + |LivePath| + Run(s, i + |LivePath|, IsDigit)])
    else None
  }

  /** The Bilibili video capture is a BV id, or "av" and digits, and it stands in the link
      right after the video path. */
  lemma BilibiliVideoAtMeaning(s: string, i: nat)
    requires BilibiliVideoAt(s, i).Some?
    ensures var id := BilibiliVideoAt(s, i).value;
      PrefixAt(s, i, VideoPath + id) &&
      (IsBvid(id) || (|id| > 2 && id[..2] == "av" && IsDigits(id[2..])))
  {
    var id := BilibiliVideoAt(s, i).value;
    var j := i + |VideoPath|;
    assert s[i..j] == VideoPath;
    assert s[i..i + |VideoPath + id|] == s[i..j] + s[j..j + |id|];
  }

  /** The live capture is the room's digits, right after the live path. */
  lemma LiveAtMeaning(s: string, i: nat)
    requires LiveAt(s, i).Some?
    ensures var room := LiveAt(s, i).value;
      PrefixAt(s, i, LivePath + room) && IsDigits(room)
  {
    var room := LiveAt(s, i).value;
    var j := i + |LivePath|;
    assert s[i..j] == LivePath;
    assert s[i..i + |LivePath + room|] == s[i..j] + s[j..j + |room|];
  }

  // ---------------------------------------------------------------------------
  // parseVideoUrl

  // The embed URLs are written as concatenations of short literals, which keeps the
  // character-by-character reasoning about them cheap.
  const YoutubeEmbedBase := "https://www." + "youtube.com/embed/"
  const PlayerHost := "https://player.bilibili.com/"
  const PlayerPage := PlayerHost + "player.html?"
  const PlayerOptions := "&high_quality=1&autoplay=1"
  const LiveHost := "https://live.bilibili.com/"

  function YoutubeEmbedUrl(id: string): string {
    YoutubeEmbedBase + id + "?autoplay=1&mute=1"
  }

  function BvidPlayerUrl(bvid: string): string {
    PlayerPage + "bvid=" + bvid + PlayerOptions
  }

  function AidPlayerUrl(aid: string): string {
    PlayerPage + "aid=" + aid + PlayerOptions
  }

  function LiveRoomUrl(room: string): string {
    LiveHost + room
  }

  /** `s.replace(p, '')` with a string pattern: the first occurrence of `p` removed. */
  function RemoveFirst(s: string, p: string): (r: string)
    requires |p| > 0
    ensures PrefixAt(s, 0, p) ==> r == s[|p|..]
    ensures !Contains(s, p) ==> r == s
    decreases |s|
  {
    PrefixAtContains(s, 0, p);
    if PrefixAt(s, 0, p) then s[|p|..]
    else if |s| == 0 then s
    else
      NotContainsTail(s, p);
      [s[0]] + RemoveFirst(s[1..], p)
  }

  lemma NotContainsTail(s: string, p: string)
    requires |s| > 0
    ensures !Contains(s, p) ==> !Contains(s[1..], p)
  {
    if Contains(s[1..], p) {
      var i :| 0 <= i <= |s[1..]| - |p| && p <= s[1..][i..];
      assert s[1..][i..] == s[i + 1..];
      assert Contains(s, p);
    }
  }

  /** Whether the link looks like an embeddable player of some other platform. */
  predicate LooksEmbeddable(url: string) {
    Contains(url, "player.") || Contains(url, "embed") || Contains(url, "iframe")
  }

  /** `parseVideoUrl`: YouTube first, then a Bilibili video, then a Bilibili live room,
      then any link that looks like a player, else nothing. */
  function ParseVideoUrl(url: string): (r: Option<VideoEmbed>)
    ensures url == "" ==> r.None?
    ensures r.Some? ==> r.value.originalUrl == url
    ensures r.Some? && r.value.platform == YouTube <==> url != "" && Occurs(YoutubeAt, url)
    ensures r.Some? && r.value.platform == Bilibili <==>
      url != "" && !Occurs(YoutubeAt, url) && (Occurs(BilibiliVideoAt, url) || Occurs(LiveAt, url))
    ensures r.Some? && r.value.platform == Generic <==>
      url != "" && !Occurs(YoutubeAt, url) && !Occurs(BilibiliVideoAt, url) && !Occurs(LiveAt, url) && LooksEmbeddable(url)
    ensures r.Some? && r.value.platform == Generic ==> r.value.embedUrl == url
  {
    OccursIff(YoutubeAt, url);
    OccursIff(BilibiliVideoAt, url);
    OccursIff(LiveAt, url);
    if url == "" then None
    else match FirstMatch(YoutubeAt, url, 0)
      case Some(id) => Some(VideoEmbed(YouTube, YoutubeEmbedUrl(id), url))
      case None =>
        match FirstMatch(BilibiliVideoAt, url, 0)
        case Some(videoId) =>
          if PrefixAt(videoId, 0, "BV") then Some(VideoEmbed(Bilibili, BvidPlayerUrl(videoId), url))
          else Some(VideoEmbed(Bilibili, AidPlayerUrl(RemoveFirst(videoId, "av")), url))
        case None =>
          match FirstMatch(LiveAt, url, 0)
          case Some(room) => Some(VideoEmbed(Bilibili, LiveRoomUrl(room), url))
          case None => if LooksEmbeddable(url) then Some(VideoEmbed(Generic, url, url)) else None
  }

  /** A YouTube link embeds the 11-character id that follows the leftmost of its
      watch?v=, youtu.be/, embed/ or live/ prefixes. */
  lemma YoutubeEmbed(url: string)
    requires ParseVideoUrl(url).Some? && ParseVideoUrl(url).value.platform == YouTube
    ensures exists i: nat, b :: (0 <= b < |YoutubePrefixes| && IdAt(url, i + |YoutubePrefixes[b]|) &&
      PrefixAt(url, i, YoutubePrefixes[b]) &&
      ParseVideoUrl(url).value.embedUrl == YoutubeEmbedUrl(url[i + |YoutubePrefixes[b]|..i + |YoutubePrefixes[b]| + YoutubeIdLength]) &&
      forall j :: 0 <= j < i ==> YoutubeAt(url, j).None?)
  {
    FirstMatchIsLeftmost(YoutubeAt, url, 0);
    var i :| 0 <= i <= |url| && FirstMatch(YoutubeAt, url, 0) == YoutubeAt(url, i) && forall j :: 0 <= j < i ==> YoutubeAt(url, j).None?;
    YoutubeFromMeaning(url, i, 0);
  }

  /** A Bilibili video link embeds the BV id as `bvid=`, or the digits after "av" as `aid=`. */
  lemma BilibiliVideoEmbed(url: string)
    requires url != "" && !Occurs(YoutubeAt, url) && Occurs(BilibiliVideoAt, url)
    ensures exists i: nat, id :: (PrefixAt(url, i, VideoPath + id) &&
      ((IsBvid(id) && ParseVideoUrl(url).value.embedUrl == BvidPlayerUrl(id)) ||
       (|id| > 2 && id[..2] == "av" && IsDigits(id[2..]) && ParseVideoUrl(url).value.embedUrl == AidPlayerUrl(id[2..]))))
  {
    OccursIff(YoutubeAt, url);
    FirstMatchIsLeftmost(BilibiliVideoAt, url, 0);
    var i :| 0 <= i <= |url| && FirstMatch(BilibiliVideoAt, url, 0) == BilibiliVideoAt(url, i) && forall j :: 0 <= j < i ==> BilibiliVideoAt(url, j).None?;
    BilibiliVideoAtMeaning(url, i);
    var id := BilibiliVideoAt(url, i).value;
    assert PrefixAt(id, 0, "BV") <==> id[..2] == "BV";
  }

  /** A Bilibili live link embeds the room page of the digits after the live path. */
  lemma LiveRoomEmbed(url: string)
    requires url != "" && !Occurs(YoutubeAt, url) && !Occurs(BilibiliVideoAt, url) && Occurs(LiveAt, url)
    ensures exists i: nat, room :: (PrefixAt(url, i, LivePath + room) && IsDigits(room) &&
      ParseVideoUrl(url).value.embedUrl == LiveRoomUrl(room))
  {
    OccursIff(YoutubeAt, url);
    OccursIff(BilibiliVideoAt, url);
    FirstMatchIsLeftmost(LiveAt, url, 0);
    var i :| 0 <= i <= |url| && FirstMatch(LiveAt, url, 0) == LiveAt(url, i) && forall j :: 0 <= j < i ==> LiveAt(url, j).None?;
    LiveAtMeaning(url, i);
  }

  // ---------------------------------------------------------------------------
  // An embed URL parses back to itself

  /** Characters every YouTube match has at fixed offsets from its start. */
  lemma YoutubeLandmarks(s: string, i: nat)
    ensures YoutubeAt(s, i).Some? ==>
      i + 9 <= |s| && s[i] == 'y' && s[i + 2] == 'u' && (s[i + 5] == '.' || s[i + 7] == '.')
  {
    if YoutubeAt(s, i).Some? {
      YoutubeFromMeaning(s, i, 0);
      var b :| 0 <= b < |YoutubePrefixes| && PrefixAt(s, i, YoutubePrefixes[b]) && IdAt(s, i + |YoutubePrefixes[b]|);
      var p := YoutubePrefixes[b];
      assert s[i..i + |p|] == p;
      assert s[i] == p[0] && s[i + 2] == p[2] && s[i + 5] == p[5] && s[i + 7] == p[7];
      if b == 0 {
        assert p == "youtube.com/watch?v=";
      } else if b == 1 {
        assert p == "youtu.be/";
      } else if b == 2 {
        assert p == "youtube.com/embed/";
      } else {
        assert p == "youtube.com/live/";
      }
    }
  }

  /** Characters every Bilibili video match has at fixed offsets from its start. */
  lemma VideoLandmarks(s: string, i: nat)
    ensures BilibiliVideoAt(s, i).Some? ==> i + 19 <= |s| && s[i + 12] == '/' && s[i + 15] == 'd' && s[i + 18] == '/'
  {
    if BilibiliVideoAt(s, i).Some? {
      assert s[i..i + |VideoPath|] == VideoPath;
      assert s[i + 12] == VideoPath[12] && s[i + 15] == VideoPath[15] && s[i + 18] == VideoPath[18];
    }
  }

  /** Characters every live match has at fixed offsets from its start. */
  lemma LiveLandmarks(s: string, i: nat)
    ensures LiveAt(s, i).Some? ==> i + 18 <= |s| && s[i] == 'l' && s[i + 17] == '/'
  {
    if LiveAt(s, i).Some? {
      assert s[i..i + |LivePath|] == LivePath;
      assert s[i] == LivePath[0] && s[i + 17] == LivePath[17];
    }
  }

  /** The YouTube embed URL of an id is found again by the parser, with the same id. */
  lemma YoutubeEmbedIsStable(id: string)
    requires |id| == YoutubeIdLength && forall k :: 0 <= k < |id| ==> IsIdChar(id[k])
    ensures var e := YoutubeEmbedUrl(id); ParseVideoUrl(e) == Some(VideoEmbed(YouTube, e, e))
  {
    var e := YoutubeEmbedUrl(id);
    var www := "https://www.";
    var path := "youtube.com/embed/";
    assert forall k :: 0 <= k < 12 ==> e[k] == www[k];
    assert forall k :: 0 <= k < 12 ==> www[k] != 'y';
    forall j | 0 <= j < 12
      ensures YoutubeAt(e, j).None?
    {
      YoutubeLandmarks(e, j);
    }
    assert e[12..30] == path == YoutubePrefixes[2];
    assert e[24] == path[12] == 'e';
    assert e[17] == path[5] == 'b';
    assert !PrefixAt(e, 12, YoutubePrefixes[0]) by {
      assert e[12..32][12] == e[24];
    }
    assert !PrefixAt(e, 12, YoutubePrefixes[1]) by {
      assert e[12..21][5] == e[17];
    }
    assert IdAt(e, 30) by {
      assert forall k :: 30 <= k < 41 ==> e[k] == id[k - 30];
    }
    assert e[30..41] == id;
    FirstMatchAt(YoutubeAt, e, 0, 12);
  }

  /** The live-room URL of a room number is found again as that live room. */
  lemma LiveRoomIsStable(room: string)
    requires IsDigits(room)
    ensures var e := LiveRoomUrl(room); ParseVideoUrl(e) == Some(VideoEmbed(Bilibili, e, e))
  {
    var e := LiveRoomUrl(room);
    assert forall k :: 0 <= k < |LiveHost| ==> e[k] == LiveHost[k];
    assert forall k :: 0 <= k < |LiveHost| ==> LiveHost[k] != 'y' && LiveHost[k] != 'd';
    assert forall k :: 0 <= k < 8 ==> LiveHost[k] != 'l';
    assert forall k :: |LiveHost| <= k < |e| ==> e[k] == room[k - |LiveHost|];
    forall j | 0 <= j <= |e|
      ensures YoutubeAt(e, j).None? && BilibiliVideoAt(e, j).None?
    {
      YoutubeLandmarks(e, j);
      VideoLandmarks(e, j);
    }
    forall j | 0 <= j < 8
      ensures LiveAt(e, j).None?
    {
      LiveLandmarks(e, j);
    }
    assert e[8..26] == LiveHost[8..] == LivePath;
    assert e[26..] == room;
    assert Run(e, 26, IsDigit) == |room|;
    assert LiveAt(e, 8) == Some(room) by {
      assert e[26..26 + |room|] == room;
    }
    FirstMatchAt(LiveAt, e, 0, 8);
    OccursIff(YoutubeAt, e);
    OccursIff(BilibiliVideoAt, e);
  }

  /** Where '.', '/' and 'u' can stand in a Bilibili player URL whose id is made of
      letters and digits. */
  lemma PlayerUrlChar(key: string, id: string, k: nat)
    requires key == "bvid=" || key == "aid="
    requires forall m :: 0 <= m < |id| ==> IsAlnum(id[m])
    requires k < |PlayerPage + key + id + PlayerOptions|
    ensures var e := PlayerPage + key + id + PlayerOptions;
      (e[k] == '.' ==> k < |PlayerPage|) &&
      (e[k] == '/' ==> k == 6 || k == 7 || k == 27) &&
      (k < |PlayerPage| ==> e[k] != 'u') &&
      (k == 10 ==> e[k] == 'a')
  {
    var e := PlayerPage + key + id + PlayerOptions;
    var page := "player.html?";
    if k < |PlayerHost| {
      assert e[k] == PlayerHost[k];
    } else if k < |PlayerPage| {
      assert e[k] == page[k - |PlayerHost|];
    } else if k < |PlayerPage| + |key| {
      assert e[k] == key[k - |PlayerPage|];
      assert e[k] != '.' && e[k] != '/';
    } else if k < |PlayerPage| + |key| + |id| {
      assert e[k] == id[k - |PlayerPage| - |key|];
      assert e[k] != '.' && e[k] != '/';
    } else {
      OptionsChar(k - |PlayerPage| - |key| - |id|);
      assert e[k] == PlayerOptions[k - |PlayerPage| - |key| - |id|];
    }
  }

  /** The player options hold neither a '.' nor a '/'. */
  lemma OptionsChar(i: nat)
    requires i < |PlayerOptions|
    ensures PlayerOptions[i] != '.' && PlayerOptions[i] != '/'
  {
  }

  lemma NoYoutubeInPlayerUrl(key: string, id: string)
    requires key == "bvid=" || key == "aid="
    requires forall m :: 0 <= m < |id| ==> IsAlnum(id[m])
    ensures !Occurs(YoutubeAt, PlayerPage + key + id + PlayerOptions)
  {
    var e := PlayerPage + key + id + PlayerOptions;
    forall j | 0 <= j <= |e|
      ensures YoutubeAt(e, j).None?
    {
      YoutubeLandmarks(e, j);
      if j + 9 <= |e| {
        PlayerUrlChar(key, id, j + 2);
        PlayerUrlChar(key, id, j + 5);
        PlayerUrlChar(key, id, j + 7);
      }
    }
  }

  lemma NoVideoInPlayerUrl(key: string, id: string)
    requires key == "bvid=" || key == "aid="
    requires forall m :: 0 <= m < |id| ==> IsAlnum(id[m])
    ensures !Occurs(BilibiliVideoAt, PlayerPage + key + id + PlayerOptions)
  {
    var e := PlayerPage + key + id + PlayerOptions;
    forall j | 0 <= j <= |e|
      ensures BilibiliVideoAt(e, j).None?
    {
      VideoLandmarks(e, j);
      if j + 19 <= |e| {
        PlayerUrlChar(key, id, j + 12);
        PlayerUrlChar(key, id, j + 18);
      }
    }
  }

  lemma NoLiveInPlayerUrl(key: string, id: string)
    requires key == "bvid=" || key == "aid="
    requires forall m :: 0 <= m < |id| ==> IsAlnum(id[m])
    ensures !Occurs(LiveAt, PlayerPage + key + id + PlayerOptions)
  {
    var e := PlayerPage + key + id + PlayerOptions;
    forall j | 0 <= j <= |e|
      ensures LiveAt(e, j).None?
    {
      LiveLandmarks(e, j);
      if j + 18 <= |e| {
        PlayerUrlChar(key, id, j);
        PlayerUrlChar(key, id, j + 17);
      }
    }
  }

  /** A Bilibili player URL matches none of the three patterns and is taken as a generic
      embed of itself. */
  lemma PlayerUrlIsGeneric(key: string, id: string)
    requires key == "bvid=" || key == "aid="
    requires forall m :: 0 <= m < |id| ==> IsAlnum(id[m])
    ensures var e := PlayerPage + key + id + PlayerOptions; ParseVideoUrl(e) == Some(VideoEmbed(Generic, e, e))
  {
    var e := PlayerPage + key + id + PlayerOptions;
    NoYoutubeInPlayerUrl(key, id);
    NoVideoInPlayerUrl(key, id);
    NoLiveInPlayerUrl(key, id);
    assert e[8..15] == PlayerHost[8..15] == "player.";
    ContainsAt(e, "player.", 8);
  }

  lemma YoutubeLinkIsStable(url: string)
    requires url != "" && Occurs(YoutubeAt, url)
    ensures var e := ParseVideoUrl(url).value.embedUrl; ParseVideoUrl(e) == Some(VideoEmbed(YouTube, e, e))
  {
    OccursIff(YoutubeAt, url);
    var id := FirstMatch(YoutubeAt, url, 0).value;
    assert ParseVideoUrl(url).value.embedUrl == YoutubeEmbedUrl(id);
    FirstMatchIsLeftmost(YoutubeAt, url, 0);
    var i :| 0 <= i <= |url| && FirstMatch(YoutubeAt, url, 0) == YoutubeAt(url, i);
    YoutubeFromMeaning(url, i, 0);
    var b :| 0 <= b < |YoutubePrefixes| && PrefixAt(url, i, YoutubePrefixes[b]) && IdAt(url, i + |YoutubePrefixes[b]|) &&
      id == url[i + |YoutubePrefixes[b]|..i + |YoutubePrefixes[b]| + YoutubeIdLength];
    YoutubeEmbedIsStable(id);
  }

  lemma VideoLinkIsStable(url: string)
    requires url != "" && !Occurs(YoutubeAt, url) && Occurs(BilibiliVideoAt, url)
    ensures var e := ParseVideoUrl(url).value.embedUrl; ParseVideoUrl(e) == Some(VideoEmbed(Generic, e, e))
  {
    BilibiliVideoEmbed(url);
    var e := ParseVideoUrl(url).value.embedUrl;
    var i: nat, id :| (PrefixAt(url, i, VideoPath + id) &&
      ((IsBvid(id) && e == BvidPlayerUrl(id)) ||
       (|id| > 2 && id[..2] == "av" && IsDigits(id[2..]) && e == AidPlayerUrl(id[2..]))));
    if IsBvid(id) && e == BvidPlayerUrl(id) {
      assert forall k :: 0 <= k < |id| ==> IsAlnum(id[k]) by {
        assert forall k :: 0 <= k < 2 ==> id[k] == id[..2][k];
      }
      PlayerUrlIsGeneric("bvid=", id);
    } else {
      PlayerUrlIsGeneric("aid=", id[2..]);
    }
  }

  lemma LiveLinkIsStable(url: string)
    requires url != "" && !Occurs(YoutubeAt, url) && !Occurs(BilibiliVideoAt, url) && Occurs(LiveAt, url)
    ensures var e := ParseVideoUrl(url).value.embedUrl; ParseVideoUrl(e) == Some(VideoEmbed(Bilibili, e, e))
  {
    LiveRoomEmbed(url);
    var i: nat, room :| (PrefixAt(url, i, LivePath + room) && IsDigits(room) && ParseVideoUrl(url).value.embedUrl == LiveRoomUrl(room));
    LiveRoomIsStable(room);
  }

  /** Parsing the embed URL of any parsed link gives back the same embed URL: YouTube and
      live-room URLs are recognised again, a Bilibili player URL is taken as a generic embed
      of itself, and a generic link already is its own embed URL. */
  lemma EmbedUrlIsStable(url: string)
    requires ParseVideoUrl(url).Some?
    ensures var e := ParseVideoUrl(url).value.embedUrl;
      ParseVideoUrl(e).Some? && ParseVideoUrl(e).value.embedUrl == e
  {
    var v := ParseVideoUrl(url).value;
    if v.platform == YouTube {
      YoutubeLinkIsStable(url);
    } else if v.platform == Bilibili && Occurs(BilibiliVideoAt, url) {
      VideoLinkIsStable(url);
    } else if v.platform == Bilibili {
      LiveLinkIsStable(url);
    }
  }

  // ---------------------------------------------------------------------------
  // isLiveStream and getPlatformName

  /** `isLiveStream`: a YouTube live or watch link, or a Bilibili live link. */
  predicate IsLiveStream(url: string) {
    url != "" &&
    (Contains(url, "youtube.com/live/") || Contains(url, "youtube.com/watch") || Contains(url, "live.bilibili.com"))
  }

  /** Every link the parser embeds as a Bilibili live room counts as a live stream. */
  lemma LiveRoomsAreLiveStreams(url: string)
    requires url != "" && !Occurs(YoutubeAt, url) && !Occurs(BilibiliVideoAt, url) && Occurs(LiveAt, url)
    ensures IsLiveStream(url)
  {
    var k :| 0 <= k <= |url| && LiveAt(url, k).Some?;
    assert url[k..k + |LivePath|] == LivePath;
    assert url[k..k + 17] == url[k..k + |LivePath|][..17] == "live.bilibili.com";
    ContainsAt(url, "live.bilibili.com", k);
  }

  /** `getPlatformName`. */
  function PlatformName(p: Platform): string {
    match p
    case YouTube => "YouTube"
    case Bilibili => "哔哩哔哩 / Bilibili"
    case Generic => "Video Stream"
  }

  /** The display names tell the three platforms apart. */
  lemma PlatformNamesDistinct(p: Platform, q: Platform)
    requires PlatformName(p) == PlatformName(q)
    ensures p == q
  {
  }
}
