/**
  Playlist normalisation: the videos of a fetched playlist become songs. Hidden
  videos ("Private video", "Deleted video") are dropped, at most
  `MaxPlaylistSize` of the rest are kept, in order, and each keeps its title and
  gets a watch URL built from its id.
*/
module Playlists {
  /** A video of a fetched playlist, as far as the normalisation looks at it. */
  datatype Video = Video(id: string, title: string)

  /** A playable song built from a video. */
  datatype Song = Song(title: string, url: string)

  /** `MAX_PLAYLIST_SIZE`. */
  const MaxPlaylistSize: nat := 100

  const WatchPrefix: string := "https://youtube.com/watch?v="

  /** The titles the provider gives to videos that cannot be played. */
  predicate Hidden(v: Video) {
    v.title == "Private video" || v.title == "Deleted video"
  }

  /** The `filter` step: the videos that are not hidden, in their original order. */
  function Visible(videos: seq<Video>): (r: seq<Video>)
    ensures |r| <= |videos|
    ensures forall i :: 0 <= i < |r| ==> !Hidden(r[i])
  {
    if videos == [] then []
    else if Hidden(videos[0]) then Visible(videos[1..])
    else [videos[0]] + Visible(videos[1..])
  }

  /** The `slice(0, MAX_PLAYLIST_SIZE)` step: the first `n` elements, or all of them when there are fewer. */
  function Take(videos: seq<Video>, n: nat): (r: seq<Video>)
    ensures |r| == if |videos| < n then |videos| else n
    ensures r == videos[..|r|]
  {
    if |videos| <= n then videos else videos[..n]
  }

  /** The `map` step for one video: same title, a watch URL from the id. */
  function ToSong(v: Video): (s: Song)
    ensures s.title == v.title
    ensures |s.url| == |WatchPrefix| + |v.id|
    ensures s.url[..|WatchPrefix|] == WatchPrefix && s.url[|WatchPrefix|..] == v.id
  {
    Song(v.title, WatchPrefix + v.id)
  }

  /** The video id a watch URL was built from: the part after the prefix. */
  function IdOf(url: string): (id: string)
    requires |url| >= |WatchPrefix|
    ensures url == url[..|WatchPrefix|] + id
  {
    url[|WatchPrefix|..]
  }

  /** The `map` step over the whole list. */
  function ToSongs(videos: seq<Video>): (r: seq<Song>)
    ensures |r| == |videos|
    ensures forall i :: 0 <= i < |r| ==> r[i] == ToSong(videos[i])
  {
    if videos == [] then [] else [ToSong(videos[0])] + ToSongs(videos[1..])
  }

  /**
    The songs of a playlist: filter, then cap, then map. The result holds at most
    `MaxPlaylistSize` songs: exactly the first min(`MaxPlaylistSize`, k) of the k
    visible videos, in their order, each with the video's title and a watch URL for
    its id; no song comes from a hidden video.
  */
  function Songs(videos: seq<Video>): (r: seq<Song>)
    ensures var k := |Visible(videos)|;
      && |r| <= MaxPlaylistSize
      && |r| == (if k < MaxPlaylistSize then k else MaxPlaylistSize)
      && forall i :: 0 <= i < |r| ==>
        && r[i].title == Visible(videos)[i].title
        && r[i].url == WatchPrefix + Visible(videos)[i].id
        && r[i].title != "Private video" && r[i].title != "Deleted video"
  {
    ToSongs(Take(Visible(videos), MaxPlaylistSize))
  }

  /** Filtering a concatenation filters each part. */
  lemma {:induction false} VisibleAppend(a: seq<Video>, b: seq<Video>)
    ensures Visible(a + b) == Visible(a) + Visible(b)
  {
    if a == [] {
      assert a + b == b;
    } else {
      assert (a + b)[1..] == a[1..] + b;
      VisibleAppend(a[1..], b);
    }
  }

  /** Filtering one video keeps it exactly when it is not hidden. */
  lemma VisibleOne(v: Video)
    ensures Visible([v]) == if Hidden(v) then [] else [v]
  {
    assert [v][1..] == [];
  }

  /** Every video the filter keeps is one of the input videos. */
  lemma {:induction false} VisibleFromInput(videos: seq<Video>)
    ensures forall i :: 0 <= i < |Visible(videos)| ==> Visible(videos)[i] in videos
  {
    if videos != [] {
      VisibleFromInput(videos[1..]);
      forall i | 0 <= i < |Visible(videos)| ensures Visible(videos)[i] in videos {
        if !Hidden(videos[0]) && i == 0 {
        } else {
          var j := if Hidden(videos[0]) then i else i - 1;
          assert Visible(videos)[i] == Visible(videos[1..])[j];
          assert Visible(videos[1..])[j] in videos[1..];
        }
      }
    }
  }

  /** Every input video that is not hidden is kept by the filter. */
  lemma {:induction false} VisibleKeepsShown(videos: seq<Video>, v: Video)
    requires v in videos && !Hidden(v)
    ensures v in Visible(videos)
  {
    if videos[0] != v {
      assert v in videos[1..];
      VisibleKeepsShown(videos[1..], v);
    }
  }

  /** Every song was built from a video of the playlist that is not hidden. */
  lemma SongsComeFromShownVideos(videos: seq<Video>)
    ensures forall i :: 0 <= i < |Songs(videos)| ==>
      exists v :: v in videos && !Hidden(v) && Songs(videos)[i] == ToSong(v)
  {
    VisibleFromInput(videos);
    var r := Songs(videos);
    forall i | 0 <= i < |r| ensures exists v :: v in videos && !Hidden(v) && r[i] == ToSong(v) {
      var v := Visible(videos)[i];
      assert v in videos && !Hidden(v) && r[i] == ToSong(v);
    }
  }

  /**
    The cap is applied after the filter: hidden videos never take up room. Once the
    visible videos of a prefix fill the cap, whatever follows changes nothing.
  */
  lemma CapCountsOnlyShown(a: seq<Video>, b: seq<Video>)
    requires |Visible(a)| >= MaxPlaylistSize
    ensures Songs(a + b) == Songs(a)
  {
    VisibleAppend(a, b);
    assert Take(Visible(a) + Visible(b), MaxPlaylistSize) == Take(Visible(a), MaxPlaylistSize);
  }

  /** Hidden videos anywhere in the playlist do not change its songs. */
  lemma HiddenVideosIgnored(a: seq<Video>, v: Video, b: seq<Video>)
    requires Hidden(v)
    ensures Songs(a + [v] + b) == Songs(a + b)
  {
    VisibleAppend(a + [v], b);
    VisibleAppend(a, [v]);
    VisibleAppend(a, b);
    VisibleOne(v);
    assert Visible(a + [v]) == Visible(a);
  }

  /** The video id is recovered from each song's URL. */
  lemma UrlRoundTrip(v: Video)
    ensures IdOf(ToSong(v).url) == v.id
  {
  }
}
