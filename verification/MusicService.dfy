/**
 * The music player's bookkeeping: the per-guild song queues, the choice of a search result
 * (an official or music-video upload first, never a live or hour-long video when something
 * shorter exists), the song record built from it, and the `m:ss` / `h:mm:ss` duration text.
 */
module MusicService {
  import opened Wrappers
  import opened Text

  // ---------------------------------------------------------------------------
  // Durations
  // ---------------------------------------------------------------------------

  /** The shown duration of a video without a length (a live stream). */
  const Live: string := "LIVE"

  /** The fields of a positive duration: `[h, mm, ss]` from an hour up, else `[m, ss]`. */
  function DurationFields(seconds: nat): (r: seq<string>)
    requires seconds > 0
    ensures |r| == 3 <==> seconds >= 3600
    ensures |r| == 2 <==> seconds < 3600
  {
    var h, m, s := seconds / 3600, seconds % 3600 / 60, seconds % 60;
    if h > 0 then [NatToBase(h, 10), Pad2(m), Pad2(s)] else [NatToBase(m, 10), Pad2(s)]
  }

  /** `formatDuration`: 'LIVE' for a missing or zero length, else the fields joined by ':'. */
  function FormatDuration(seconds: Option<nat>): string {
    if seconds.None? || seconds.value == 0 then Live
    else Join(DurationFields(seconds.value), ":")
  }

  /** Reads `m:ss` or `h:mm:ss` back into seconds. */
  function ParseDuration(shown: string): nat {
    var f := Split(shown, ':');
    if |f| == 3 then BaseToNat(f[0], 10) * 3600 + BaseToNat(f[1], 10) * 60 + BaseToNat(f[2], 10)
    else if |f| == 2 then BaseToNat(f[0], 10) * 60 + BaseToNat(f[1], 10)
    else 0
  }

  lemma DigitsHaveNoColon(n: nat)
    ensures ':' !in NatToBase(n, 10) && ':' !in Pad2(n)
  {
    var d := NatToBase(n, 10);
    assert ':' !in Digits[..10];
    forall i | 0 <= i < |d|
      ensures d[i] != ':'
    {
      assert d[i] in Digits[..10];
    }
    var p := Pad2(n);
    forall i | 0 <= i < |p|
      ensures p[i] != ':'
    {
      if |d| < 2 {
        assert p == "0" + d;
        if i > 0 {
          assert p[i] == d[i - 1];
        }
      }
    }
  }

  /** A number under 100 takes exactly two characters once padded. */
  lemma Pad2Width(n: nat)
    requires n < 100
    ensures |Pad2(n)| == 2
  {
    if n >= 10 {
      assert NatToBase(n, 10) == NatToBase(n / 10, 10) + [Digits[n % 10]];
    }
  }

  lemma {:induction false} JoinSplitFields(fields: seq<string>)
    requires 2 <= |fields| <= 3
    requires forall i :: 0 <= i < |fields| ==> ':' !in fields[i]
    ensures Split(Join(fields, ":"), ':') == fields
  {
    assert ":" == [':'];
    SplitJoin(fields, ':');
  }

  /** `h:mm:ss` reads back to its seconds. */
  lemma LongRoundTrip(h: nat, m: nat, s: nat)
    requires h > 0 && m < 60 && s < 60
    ensures ParseDuration(Join([NatToBase(h, 10), Pad2(m), Pad2(s)], ":")) == h * 3600 + m * 60 + s
  {
    var fields := [NatToBase(h, 10), Pad2(m), Pad2(s)];
    DigitsHaveNoColon(h);
    DigitsHaveNoColon(m);
    DigitsHaveNoColon(s);
    JoinSplitFields(fields);
    BaseRoundTrip(h, 10);
    Pad2RoundTrip(m);
    Pad2RoundTrip(s);
  }

  /** `m:ss` reads back to its seconds. */
  lemma ShortRoundTrip(m: nat, s: nat)
    requires s < 60
    ensures ParseDuration(Join([NatToBase(m, 10), Pad2(s)], ":")) == m * 60 + s
  {
    var fields := [NatToBase(m, 10), Pad2(s)];
    DigitsHaveNoColon(m);
    DigitsHaveNoColon(s);
    JoinSplitFields(fields);
    BaseRoundTrip(m, 10);
    Pad2RoundTrip(s);
  }

  lemma SplitSeconds(seconds: nat)
    ensures seconds == (seconds / 3600) * 3600 + (seconds % 3600 / 60) * 60 + seconds % 60
    ensures seconds % 3600 / 60 < 60
  {
    var r := seconds % 3600;
    assert seconds == (seconds / 3600) * 3600 + r;
    assert r == (r / 60) * 60 + r % 60;
    assert r % 60 == seconds % 60 by {
      assert seconds == (seconds / 3600) * 60 * 60 + r;
    }
  }

  /** Reading a positive duration's text back gives the seconds. */
  lemma DurationRoundTrip(seconds: nat)
    requires seconds > 0
    ensures ParseDuration(FormatDuration(Some(seconds))) == seconds
  {
    var h, m, s := seconds / 3600, seconds % 3600 / 60, seconds % 60;
    SplitSeconds(seconds);
    var text := FormatDuration(Some(seconds));
    if h > 0 {
      assert text == Join([NatToBase(h, 10), Pad2(m), Pad2(s)], ":");
      LongRoundTrip(h, m, s);
    } else {
      assert text == Join([NatToBase(m, 10), Pad2(s)], ":");
      ShortRoundTrip(m, s);
      assert m * 60 + s == seconds;
    }
  }

  /** A positive duration never shows as LIVE; its minute and second fields past the first are two digits. */
  lemma DurationShape(seconds: nat)
    requires seconds > 0
    ensures FormatDuration(Some(seconds)) != Live
    ensures Split(FormatDuration(Some(seconds)), ':') == DurationFields(seconds)
    ensures forall i :: 1 <= i < |DurationFields(seconds)| ==> |DurationFields(seconds)[i]| == 2
  {
    var h, m, s := seconds / 3600, seconds % 3600 / 60, seconds % 60;
    SplitSeconds(seconds);
    var fields := DurationFields(seconds);
    DigitsHaveNoColon(h);
    DigitsHaveNoColon(m);
    DigitsHaveNoColon(s);
    Pad2Width(m);
    Pad2Width(s);
    JoinSplitFields(fields);
    SplitNoSep(Live, ':');
  }

  /** No length and a zero length both show as LIVE. */
  lemma LiveWithoutLength()
    ensures FormatDuration(None) == Live && FormatDuration(Some(0)) == Live
  {
  }

  // ---------------------------------------------------------------------------
  // Search results and song records
  // ---------------------------------------------------------------------------

  /** The fields of a search result the player reads; `None` stands for a missing field. */
  datatype Video = Video(
    id: string,
    title: Option<string>,
    channel: Option<string>,
    uploader: Option<string>,
    duration: Option<nat>,
    webpageUrl: Option<string>,
    url: Option<string>,
    thumbnail: Option<string>,
    thumbnails: seq<Option<string>>)

  /** The song record queued and shown. */
  datatype SongInfo = SongInfo(
    title: Option<string>,
    url: string,
    duration: string,
    durationSec: nat,
    thumbnail: Option<string>,
    channel: string)

  /** A string field that JavaScript reads as true: present and not empty. */
  predicate Truthy(o: Option<string>) {
    o.Some? && o.value != ""
  }

  /** `a || b` over optional strings. */
  function Either(a: Option<string>, b: Option<string>): (r: Option<string>)
    ensures Truthy(a) ==> r == a
    ensures !Truthy(a) ==> r == b
  {
    if Truthy(a) then a else b
  }

  /** `a || fallback`. */
  function OrElse(a: Option<string>, fallback: string): (r: string)
    ensures Truthy(a) ==> r == a.value
    ensures !Truthy(a) ==> r == fallback
  {
    if Truthy(a) then a.value else fallback
  }

  const WatchPrefix: string := "https://www.youtube.com/watch?v="
  const UnknownChannel: string := "알 수 없음"

  /** `buildSongInfo`. */
  function BuildSongInfo(v: Video): (r: SongInfo)
    ensures Truthy(v.webpageUrl) ==> r.url == v.webpageUrl.value
    ensures !Truthy(v.webpageUrl) && Truthy(v.url) ==> r.url == v.url.value
    ensures !Truthy(v.webpageUrl) && !Truthy(v.url) ==> r.url == WatchPrefix + v.id
    ensures r.url != ""
    ensures Truthy(v.channel) ==> r.channel == v.channel.value
    ensures !Truthy(v.channel) && Truthy(v.uploader) ==> r.channel == v.uploader.value
    ensures !Truthy(v.channel) && !Truthy(v.uploader) ==> r.channel == UnknownChannel
    ensures r.channel != ""
    ensures r.title == v.title
    ensures v.duration.Some? ==> r.durationSec == v.duration.value
    ensures v.duration.None? ==> r.durationSec == 0
    ensures Truthy(v.thumbnail) ==> r.thumbnail == v.thumbnail
    ensures !Truthy(v.thumbnail) && |v.thumbnails| > 0 && Truthy(v.thumbnails[0]) ==> r.thumbnail == v.thumbnails[0]
    ensures !Truthy(v.thumbnail) && (|v.thumbnails| == 0 || !Truthy(v.thumbnails[0])) ==> r.thumbnail == None
    ensures r.thumbnail.Some? ==> r.thumbnail.value != ""
  {
    var seconds := if v.duration.Some? then v.duration.value else 0;
    var firstThumb := if |v.thumbnails| > 0 then v.thumbnails[0] else None;
    var thumb := Either(v.thumbnail, firstThumb);
    SongInfo(
      v.title,
      OrElse(Either(v.webpageUrl, v.url), WatchPrefix + v.id),
      FormatDuration(v.duration),
      seconds,
      if Truthy(thumb) then thumb else None,
      OrElse(Either(v.channel, v.uploader), UnknownChannel))
  }

  /** The song's two durations agree: LIVE exactly when it has no seconds, else the text reads back to them. */
  lemma SongDurationsAgree(v: Video)
    ensures BuildSongInfo(v).durationSec == 0 <==> BuildSongInfo(v).duration == Live
    ensures BuildSongInfo(v).durationSec > 0 ==> ParseDuration(BuildSongInfo(v).duration) == BuildSongInfo(v).durationSec
  {
    var r := BuildSongInfo(v);
    if r.durationSec > 0 {
      DurationRoundTrip(r.durationSec);
    }
  }

  const TitleMarks: seq<string> := ["mv", "m/v", "music video", "official", "뮤직비디오"]
  const ChannelMarks: seq<string> := ["official", "hybe", "sm entertainment", "jyp", "yg"]

  /** Whether `s` contains one of `marks`. */
  predicate MentionsAny(s: string, marks: seq<string>) {
    exists i :: 0 <= i < |marks| && Contains(s, marks[i])
  }

  /** A music video or an official upload, by its lower-cased title or channel. */
  predicate LooksOfficial(v: Video) {
    MentionsAny(Lower(OrElse(v.title, "")), TitleMarks)
    || MentionsAny(Lower(OrElse(Either(v.channel, v.uploader), "")), ChannelMarks)
  }

  /** Neither live (no length) nor an hour or longer. */
  predicate Playable(v: Video) {
    v.duration.Some? && 0 < v.duration.value <= 3600
  }

  /** The index of the first official-looking result, as `results.find` returns it. */
  function FirstOfficial(results: seq<Video>): (r: Option<nat>)
    ensures r.Some? ==> r.value < |results| && LooksOfficial(results[r.value])
    ensures r.Some? ==> forall j :: 0 <= j < r.value ==> !LooksOfficial(results[j])
    ensures r.None? ==> forall j :: 0 <= j < |results| ==> !LooksOfficial(results[j])
  {
    if |results| == 0 then None
    else if LooksOfficial(results[0]) then Some(0)
    else
      var rest := FirstOfficial(results[1..]);
      if rest.Some? then Some(rest.value + 1) else None
  }

  /** The index of the first playable result. */
  function FirstPlayable(results: seq<Video>): (r: Option<nat>)
    ensures r.Some? ==> r.value < |results| && Playable(results[r.value])
    ensures r.Some? ==> forall j :: 0 <= j < r.value ==> !Playable(results[j])
    ensures r.None? ==> forall j :: 0 <= j < |results| ==> !Playable(results[j])
  {
    if |results| == 0 then None
    else if Playable(results[0]) then Some(0)
    else
      var rest := FirstPlayable(results[1..]);
      if rest.Some? then Some(rest.value + 1) else None
  }

  /** The video `pickBestResult` builds its song from; the search never passes an empty list. */
  function PickVideo(results: seq<Video>): (r: Video)
    requires |results| > 0
    ensures r in results
    ensures (exists j :: 0 <= j < |results| && Playable(results[j])) ==> Playable(r)
    ensures (forall j :: 0 <= j < |results| ==> !Playable(results[j])) ==> r == results[0]
  {
    var official := FirstOfficial(results);
    var video := if official.Some? then results[official.value] else results[0];
    if !Playable(video) then
      match FirstPlayable(results)
      case Some(j) => results[j]
      case None => results[0]
    else video
  }

  /** `pickBestResult`. */
  function PickBestResult(results: seq<Video>): (r: SongInfo)
    requires |results| > 0
    ensures r == BuildSongInfo(PickVideo(results))
  {
    BuildSongInfo(PickVideo(results))
  }

  /** The first official-looking result wins when it is playable; otherwise the first result does if playable. */
  lemma OfficialPreferred(results: seq<Video>)
    requires |results| > 0
    ensures (FirstOfficial(results).Some? && Playable(results[FirstOfficial(results).value]))
              ==> PickVideo(results) == results[FirstOfficial(results).value]
    ensures FirstOfficial(results).None? && Playable(results[0]) ==> PickVideo(results) == results[0]
  {
  }

  /** When the preferred video is not playable, the first playable result is taken instead. */
  lemma FallbackIsFirstPlayable(results: seq<Video>)
    requires |results| > 0
    requires FirstPlayable(results).Some?
    requires FirstOfficial(results).None? || !Playable(results[FirstOfficial(results).value])
    requires FirstOfficial(results).Some? || !Playable(results[0])
    ensures PickVideo(results) == results[FirstPlayable(results).value]
  {
  }

  // ---------------------------------------------------------------------------
  // Queues
  // ---------------------------------------------------------------------------

  /** A guild's queue: its songs and whether it plays (the voice connection, player and timers are not modelled). */
  datatype Queue = Queue(songs: seq<SongInfo>, playing: bool)

  const EmptyQueue := Queue([], false)

  /** The queues after `getQueue(guildId)`: created empty only when missing. */
  function WithQueue(queues: map<string, Queue>, guildId: string): (r: map<string, Queue>)
    ensures guildId in r
    ensures guildId in queues ==> r == queues
    ensures guildId !in queues ==> r[guildId] == EmptyQueue && r.Keys == queues.Keys + {guildId}
    ensures forall g :: g in queues ==> g in r && r[g] == queues[g]
  {
    if guildId in queues then queues else queues[guildId := EmptyQueue]
  }

  /** The queues after `addSong(guildId, song)`. */
  function WithSong(queues: map<string, Queue>, guildId: string, song: SongInfo): (r: map<string, Queue>)
    ensures guildId in r && r.Keys == WithQueue(queues, guildId).Keys
    ensures r[guildId].songs == WithQueue(queues, guildId)[guildId].songs + [song]
    ensures r[guildId].playing == WithQueue(queues, guildId)[guildId].playing
    ensures forall g :: g in queues && g != guildId ==> r[g] == queues[g]
  {
    var q := WithQueue(queues, guildId)[guildId];
    WithQueue(queues, guildId)[guildId := q.(songs := q.songs + [song])]
  }

  /** Looking a queue up a second time changes nothing. */
  lemma WithQueueIdempotent(queues: map<string, Queue>, guildId: string)
    ensures WithQueue(WithQueue(queues, guildId), guildId) == WithQueue(queues, guildId)
  {
  }

  /** Songs added one after another queue up in that order, behind the earlier ones. */
  lemma SongsQueueInOrder(queues: map<string, Queue>, guildId: string, a: SongInfo, b: SongInfo)
    ensures WithSong(WithSong(queues, guildId, a), guildId, b)[guildId].songs
         == WithQueue(queues, guildId)[guildId].songs + [a, b]
  {
    var before := WithQueue(queues, guildId)[guildId].songs;
    assert before + [a] + [b] == before + [a, b];
  }

  /** The guild queues of the player. */
  class MusicQueues {
    var queues: map<string, Queue>

    constructor ()
      ensures queues == map[]
    {
      queues := map[];
    }

    /** `getQueue`. */
    method GetQueue(guildId: string) returns (queue: Queue)
      modifies this
      ensures queues == WithQueue(old(queues), guildId)
      ensures queue == queues[guildId]
      ensures guildId !in old(queues) ==> queue == EmptyQueue
    {
      if guildId !in queues {
        queues := queues[guildId := EmptyQueue];
      }
      queue := queues[guildId];
    }

    /** `addSong`: append, and answer the new length. */
    method AddSong(guildId: string, song: SongInfo) returns (length: nat)
      modifies this
      ensures queues == WithSong(old(queues), guildId, song)
      ensures length == |queues[guildId].songs| && length >= 1
      ensures queues[guildId].songs[..length - 1] == WithQueue(old(queues), guildId)[guildId].songs
      ensures queues[guildId].songs[length - 1] == song
    {
      var queue := GetQueue(guildId);
      queues := queues[guildId := queue.(songs := queue.songs + [song])];
      length := |queues[guildId].songs|;
    }

    /** `getQueueInfo`: a copy of the songs and the playing flag (creating the queue if missing). */
    method GetQueueInfo(guildId: string) returns (songs: seq<SongInfo>, playing: bool)
      modifies this
      ensures queues == WithQueue(old(queues), guildId)
      ensures songs == queues[guildId].songs && playing == queues[guildId].playing
    {
      var queue := GetQueue(guildId);
      songs, playing := queue.songs, queue.playing;
    }
  }
}
