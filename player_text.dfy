/**
 * The texts a media player section shows: the loop-status cycle of the
 * repeat button, the artist/album/title fallbacks applied to track metadata,
 * and the track text written on the panel with its truncation.
 */
module PlayerText {
  import opened Wrappers

  // ---------------------------------------------------------------------------
  // LoopStatus cycle
  // ---------------------------------------------------------------------------

  /** The values of the MPRIS `LoopStatus` property. */
  const LoopStatuses: seq<string> := ["None", "Playlist", "Track"]

  /**
   * `_toggleLoopStatus`: the lookup in the `{None: Playlist, Playlist: Track,
   * Track: None}` mapping; any other status finds no entry (`undefined`).
   */
  function ToggleLoopStatus(status: string): (next: Option<string>)
    ensures next.Some? <==> status in LoopStatuses
    ensures next.Some? ==> next.value in LoopStatuses && next.value != status
    ensures forall i {:trigger LoopStatuses[i]} | 0 <= i < |LoopStatuses| && status == LoopStatuses[i] ::
      next == Some(LoopStatuses[(i + 1) % |LoopStatuses|])
  {
    if status == "None" then Some("Playlist")
    else if status == "Playlist" then Some("Track")
    else if status == "Track" then Some("None")
    else None
  }

  /** `n` presses of the repeat button, starting from `status`. */
  function TogglePresses(status: string, n: nat): Option<string>
    decreases n
  {
    if n == 0 then Some(status)
    else match ToggleLoopStatus(status)
      case None => None
      case Some(next) => TogglePresses(next, n - 1)
  }

  /** Three presses come back to where they started; one or two never do. */
  lemma ToggleCycle(status: string)
    requires status in LoopStatuses
    ensures TogglePresses(status, 3) == Some(status)
    ensures TogglePresses(status, 1) != Some(status)
    ensures TogglePresses(status, 2) != Some(status)
  {
  }

  /** The button steps forward through `LoopStatuses`: None, then Playlist, then Track. */
  lemma ToggleOrder()
    ensures TogglePresses("None", 1) == Some("Playlist")
    ensures TogglePresses("None", 2) == Some("Track")
    ensures TogglePresses("None", 3) == Some("None")
  {
  }

  /** Every loop status is reachable from every other by at most two presses. */
  lemma ToggleReachesEveryStatus(from: string, to: string)
    requires from in LoopStatuses && to in LoopStatuses
    ensures exists n :: 0 <= n < 3 && TogglePresses(from, n) == Some(to)
  {
    if to == from {
      assert TogglePresses(from, 0) == Some(to);
    } else if ToggleLoopStatus(from) == Some(to) {
      assert TogglePresses(from, 1) == Some(to);
    } else {
      assert TogglePresses(from, 2) == Some(to);
    }
  }

  // ---------------------------------------------------------------------------
  // Searching for a separator
  // ---------------------------------------------------------------------------

  /** `sep` occurs in `s` at index `j`. */
  predicate OccursAt(s: string, sep: string, j: int) {
    0 <= j && j + |sep| <= |s| && s[j..j + |sep|] == sep
  }

  /** `s.includes(sep)`. */
  predicate Includes(s: string, sep: string) {
    exists j | 0 <= j <= |s| :: OccursAt(s, sep, j)
  }

  lemma OccursShifted(s: string, sep: string, j: int)
    requires |s| >= 1 && j >= 0
    ensures OccursAt(s, sep, j + 1) <==> OccursAt(s[1..], sep, j)
  {
    if j + 1 + |sep| <= |s| {
      var a, b := s[j + 1..j + 1 + |sep|], s[1..][j..j + |sep|];
      forall k | 0 <= k < |sep|
        ensures a[k] == b[k]
      {
        assert a[k] == s[j + 1 + k];
        assert b[k] == s[1..][j + k] == s[j + 1 + k];
      }
      assert a == b;
    }
  }

  /** `s.indexOf(sep)`: the first occurrence, if any. */
  function Find(s: string, sep: string): (r: Option<nat>)
    decreases |s|
    ensures r.Some? ==> OccursAt(s, sep, r.value)
    ensures r.Some? ==> forall j | 0 <= j < r.value :: !OccursAt(s, sep, j)
    ensures r.None? <==> !Includes(s, sep)
  {
    if |s| < |sep| then None
    else if s[..|sep|] == sep then Some(0)
    else
      var rest := Find(s[1..], sep);
      assert !OccursAt(s, sep, 0);
      assert forall j | 1 <= j :: OccursAt(s, sep, j) <==> OccursAt(s[1..], sep, j - 1) by {
        forall j | 1 <= j
          ensures OccursAt(s, sep, j) <==> OccursAt(s[1..], sep, j - 1)
        {
          OccursShifted(s, sep, j - 1);
        }
      }
      match rest
      case None => None
      case Some(k) => Some(k + 1)
  }

  /** `s.split(sep)[0]`: the text before the first occurrence, or all of it. */
  function Before(s: string, sep: string): (r: string)
    requires sep != ""
    ensures !Includes(r, sep)
    ensures r <= s
    ensures r == s <==> !Includes(s, sep)
    ensures r == s || OccursAt(s, sep, |r|)
    ensures forall j | 0 <= j < |r| :: !OccursAt(s, sep, j)
  {
    match Find(s, sep)
    case None => s
    case Some(i) => FirstPiece(s, sep, i)
  }

  /** The text before the first occurrence at `i` holds no occurrence. */
  function FirstPiece(s: string, sep: string, i: nat): (r: string)
    requires sep != ""
    requires OccursAt(s, sep, i)
    requires forall j | 0 <= j < i :: !OccursAt(s, sep, j)
    ensures r == s[..i]
    ensures !Includes(r, sep)
  {
    var r := s[..i];
    assert forall j | OccursAt(r, sep, j) :: OccursAt(s, sep, j) && j < i by {
      forall j | OccursAt(r, sep, j)
        ensures OccursAt(s, sep, j) && j < i
      {
        assert s[j..j + |sep|] == r[j..j + |sep|];
      }
    }
    r
  }

  // ---------------------------------------------------------------------------
  // Metadata fallbacks
  // ---------------------------------------------------------------------------

  const UnknownArtist: string := "Unknown Artist"
  const UnknownAlbum: string := "Unknown Album"
  const UnknownTitle: string := "Unknown Title"
  /** The separator between artist and title in a combined title. */
  const Dash: string := " - "

  /** A metadata value, by its D-Bus type: `s`, `as`, or anything else. */
  datatype Variant = Str(s: string) | StrArray(items: seq<string>) | OtherType

  /** `items.join(", ")`. */
  function JoinComma(items: seq<string>): (r: string)
    ensures items == [] ==> r == ""
    ensures |items| == 1 ==> r == items[0]
  {
    if items == [] then ""
    else if |items| == 1 then items[0]
    else items[0] + ", " + JoinComma(items[1..])
  }

  /** Two or more items: the join of all but the last, a comma and a space, then the last item. */
  lemma {:induction false} JoinCommaLast(items: seq<string>)
    requires |items| >= 2
    decreases |items|
    ensures JoinComma(items) == JoinComma(items[..|items| - 1]) + ", " + items[|items| - 1]
  {
    var n := |items|;
    var init := items[..n - 1];
    if n == 2 {
      assert init == [items[0]];
      assert items[1..] == [items[1]];
    } else {
      JoinCommaLast(items[1..]);
      assert init[1..] == items[1..][..n - 2];
      assert items[1..][n - 2] == items[n - 1];
      var mid := JoinComma(init[1..]);
      assert JoinComma(init) == items[0] + ", " + mid;
      assert JoinComma(items) == items[0] + ", " + (mid + ", " + items[n - 1]);
    }
  }

  /** The artist shown for the `xesam:artist` entry (absent, a string, an array or another type). */
  function ArtistOf(field: Option<Variant>): (artist: string)
    ensures artist != ""
    ensures field.None? || field.value.OtherType? ==> artist == UnknownArtist
    ensures artist != UnknownArtist ==> field.Some? && (field.value.Str? || field.value.StrArray?)
  {
    match field
    case None => UnknownArtist
    case Some(v) =>
      var given := match v
        case Str(s) => s
        case StrArray(items) => JoinComma(items)
        case OtherType => UnknownArtist;
      if given == "" then UnknownArtist else given
  }

  /** A non-empty artist name is shown as sent, whether as a string or as a one-element array. */
  lemma ArtistAsSent(name: string)
    requires name != ""
    ensures ArtistOf(Some(Str(name))) == name
    ensures ArtistOf(Some(StrArray([name]))) == name
  {
  }

  /** The album shown for the `xesam:album` entry; a present entry is kept even when empty. */
  function AlbumOf(field: Option<string>): (album: string)
    ensures field.Some? ==> album == field.value
    ensures field.None? ==> album == UnknownAlbum
  {
    match field
    case None => UnknownAlbum
    case Some(s) => s
  }

  /** The artist and title a player shows. */
  datatype TrackText = TrackText(artist: string, title: string)

  /**
   * The artist and title for the `xesam:artist` and `xesam:title` entries.
   * A title holding " - " while the artist is unknown is read as
   * "artist - title" and split at its first two occurrences.
   */
  function TrackTextOf(artistField: Option<Variant>, titleField: Option<string>): (t: TrackText)
    ensures titleField.None? ==> t == TrackText(ArtistOf(artistField), UnknownTitle)
    ensures titleField.Some? && (ArtistOf(artistField) != UnknownArtist || !Includes(titleField.value, Dash)) ==>
      t == TrackText(ArtistOf(artistField), titleField.value)
    ensures titleField.Some? && ArtistOf(artistField) == UnknownArtist && Includes(titleField.value, Dash) ==>
      && !Includes(t.artist, Dash) && !Includes(t.title, Dash)
      && t.artist + Dash + t.title <= titleField.value
      && t.artist == Before(titleField.value, Dash)
      && OccursAt(titleField.value, Dash, |t.artist|)
      && t.title == Before(titleField.value[|t.artist| + |Dash|..], Dash)
  {
    var artist := ArtistOf(artistField);
    match titleField
    case None => TrackText(artist, UnknownTitle)
    case Some(title) =>
      if artist == UnknownArtist then
        match Find(title, Dash)
        case None => TrackText(artist, title)
        case Some(i) =>
          var first := FirstPiece(title, Dash, i);
          assert first == Before(title, Dash) && |first| == i;
          var rest := title[i + |Dash|..];
          var second := Before(rest, Dash);
          assert title == first + Dash + rest;
          assert first + Dash + second <= title by {
            assert first + Dash + rest == (first + Dash) + rest;
          }
          TrackText(first, second)
      else TrackText(artist, title)
  }

  /**
   * With no dash in the artist, splitting "artist - title" gives back the
   * artist, and the title up to its own first " - " (all of it when it has none).
   */
  lemma {:induction false} CombinedTitleSplits(artist: string, title: string)
    requires '-' !in artist
    ensures TrackTextOf(None, Some(artist + Dash + title)) == TrackText(artist, Before(title, Dash))
    ensures !Includes(title, Dash) ==> TrackTextOf(None, Some(artist + Dash + title)) == TrackText(artist, title)
  {
    var s := artist + Dash + title;
    var n := |artist|;
    assert s[n..n + 3] == Dash;
    assert OccursAt(s, Dash, n);
    forall j | 0 <= j < n
      ensures !OccursAt(s, Dash, j)
    {
      assert s[j + 1] == (if j + 1 < n then artist[j + 1] else ' ');
    }
    var found := Find(s, Dash);
    assert found == Some(n);
    assert s[..n] == artist;
    assert s[n + 3..] == title;
  }

  // ---------------------------------------------------------------------------
  // Panel text
  // ---------------------------------------------------------------------------

  /** The track text: the title, followed by " - " and the artist when the artist is known. */
  function TitleText(artist: string, title: string): (text: string)
    ensures artist == UnknownArtist ==> text == title
    ensures artist != UnknownArtist ==> text == title + Dash + artist && |text| == |title| + |Dash| + |artist|
  {
    if artist == UnknownArtist then title else title + Dash + artist
  }

  /** The end index `end` means to `slice(0, end)` on a sequence of `len` elements. */
  function SliceEnd(len: nat, end: int): (e: nat)
    ensures e <= len
    ensures 0 <= end <= len ==> e == end
    ensures end < 0 ==> e == (if len + end < 0 then 0 else len + end)
    ensures end > len ==> e == len
  {
    if end < 0 then (if len + end < 0 then 0 else len + end)
    else if end > len then len
    else end
  }

  /**
   * More than `truncate` characters are cut to their first `truncate - 3`
   * followed by "...": a proper prefix of the text followed by "...", of
   * exactly `truncate` characters when that is at least 3.
   */
  function Truncate(text: string, truncate: int): (r: string)
    ensures |text| <= truncate ==> r == text
    ensures |text| > truncate && text != [] ==> exists k :: 0 <= k < |text| && r == text[..k] + "..."
    ensures |text| > truncate >= 3 ==> |r| == truncate
    ensures |r| <= |text| + 3
  {
    if |text| > truncate then
      var k := SliceEnd(|text|, truncate - 3);
      var r := text[..k] + "...";
      assert text != [] ==> 0 <= k < |text| && r == text[..k] + "...";
      r
    else text
  }

  /** Below 3 the end index counts from the end of the text, so the panel text can come out longer than the limit. */
  lemma TruncateBelowThree()
    ensures Truncate("abcdef", 0) == "abc..."
    ensures |Truncate("abcdef", 0)| > 0
  {
  }

  /**
   * `setAppletText`: the panel shows the (truncated) track text of the
   * player only when the option is on and the player is playing.
   */
  function AppletText(showTrack: bool, playing: bool, track: TrackText, truncate: int): (text: string)
    ensures !(showTrack && playing) ==> text == ""
    ensures showTrack && playing && truncate >= 3 ==> |text| <= truncate
    ensures showTrack && playing && |TitleText(track.artist, track.title)| <= truncate ==>
      text == TitleText(track.artist, track.title)
  {
    if showTrack && playing then
      Truncate(TitleText(track.artist, track.title), truncate)
    else ""
  }
}
