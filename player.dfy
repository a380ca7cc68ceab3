/**
 * The music player's two click handlers that keep state of their own: the
 * track buttons, of which at most one carries the "currently playing"
 * highlight, and the play/pause toggle.
 */
module Player {
  import opened Common

  // ---------------------------------------------------------------------
  // Track selection
  // ---------------------------------------------------------------------

  /**
   * The highlight state of the track buttons: `marks[k]` says whether button
   * k carries the highlight, and `current` is the button the handler last
   * remembered as playing.
   */
  datatype Selection = Selection(marks: seq<bool>, current: Option<nat>)

  predicate WellFormed(s: Selection)
  {
    s.current.Some? ==> s.current.value < |s.marks|
  }

  /** The single-marker invariant: exactly the remembered button is highlighted (none when nothing is remembered). */
  predicate Exclusive(s: Selection)
  {
    WellFormed(s) && forall k :: 0 <= k < |s.marks| ==> (s.marks[k] <==> s.current == Some(k))
  }

  /**
   * A click on button `i`: the highlight leaves the remembered button, goes
   * to the clicked one, and the clicked one is remembered.
   */
  function Click(s: Selection, i: nat): (r: Selection)
    requires WellFormed(s) && i < |s.marks|
    ensures WellFormed(r) && |r.marks| == |s.marks|
    ensures r.current == Some(i) && r.marks[i]
    ensures s.current.Some? && s.current.value != i ==> !r.marks[s.current.value]
    ensures Exclusive(s) ==> Exclusive(r)
    ensures forall k :: 0 <= k < |s.marks| && k != i && s.current != Some(k) ==> r.marks[k] == s.marks[k]
  {
    var cleared := if s.current.Some? then s.marks[s.current.value := false] else s.marks;
    Selection(cleared[i := true], Some(i))
  }

  /**
   * A sequence of clicks. Starting from a state where the invariant holds,
   * after at least one click exactly the last-clicked button is highlighted.
   */
  function Clicks(s: Selection, clicks: seq<nat>): (r: Selection)
    requires WellFormed(s) && forall k :: 0 <= k < |clicks| ==> clicks[k] < |s.marks|
    ensures WellFormed(r) && |r.marks| == |s.marks|
    ensures Exclusive(s) ==> Exclusive(r)
    ensures clicks != [] ==> r.current == Some(clicks[|clicks| - 1])
    ensures Exclusive(s) && clicks != [] ==>
              forall k :: 0 <= k < |r.marks| ==> (r.marks[k] <==> k == clicks[|clicks| - 1])
    decreases |clicks|
  {
    if clicks == [] then s else Clicks(Click(s, clicks[0]), clicks[1..])
  }

  /** A track as its play button describes it. */
  datatype Track = Track(title: string, artist: string)

  /**
   * The track buttons of the page and the `currentlyPlaying` variable of their
   * shared click handler; `green[k]` is whether button k carries the
   * highlight class, and the "now playing" title and artist fields.
   */
  class TrackList {
    const tracks: seq<Track>
    const green: array<bool>
    var current: Option<nat>
    var nowTitle: string
    var nowArtist: string

    function Marks(): Selection
      reads this, green
    {
      Selection(green[..], current)
    }

    ghost predicate Valid()
      reads this, green
    {
      green.Length == |tracks| && Exclusive(Marks())
    }

    constructor (tracks: seq<Track>, title: string, artist: string)
      ensures Valid() && fresh(green)
      ensures this.tracks == tracks && current == None
      ensures forall k :: 0 <= k < green.Length ==> !green[k]
      ensures nowTitle == title && nowArtist == artist
    {
      this.tracks := tracks;
      green := new bool[|tracks|](_ => false);
      current := None;
      nowTitle, nowArtist := title, artist;
    }

    /** The click handler of button `i`. */
    method Select(i: nat)
      requires Valid() && i < |tracks|
      modifies this, green
      ensures Valid()
      ensures Marks() == Click(old(Marks()), i)
      ensures forall k :: 0 <= k < green.Length ==> (green[k] <==> k == i)
      ensures nowTitle == tracks[i].title && nowArtist == tracks[i].artist
    {
      if current.Some? {
        green[current.value] := false;
      }
      green[i] := true;
      current := Some(i);
      nowTitle := tracks[i].title;
      nowArtist := tracks[i].artist;
    }
  }

  // ---------------------------------------------------------------------
  // Play / pause
  // ---------------------------------------------------------------------

  /** The icon on the toggle: the action a click will take. */
  datatype Icon = PlayIcon | PauseIcon

  /** The command the toggle sends to the audio element. */
  datatype AudioCommand = Play | Pause

  /** The icon that offers the opposite of the current playback state. */
  function IconFor(playing: bool): Icon
  {
    if playing then PauseIcon else PlayIcon
  }

  /**
   * The play/pause button and the `isPlaying` variable of its handler. When
   * the page has no audio element the handler fails on its first statement,
   * so a click then changes nothing.
   */
  class PlayPause {
    const hasAudio: bool
    var isPlaying: bool
    var icon: Icon

    constructor (hasAudio: bool, icon: Icon)
      ensures this.hasAudio == hasAudio && !isPlaying && this.icon == icon
    {
      this.hasAudio := hasAudio;
      isPlaying := false;
      this.icon := icon;
    }

    /**
     * A click: pause if playing, play otherwise, then flip `isPlaying`; the
     * icon afterwards always offers the opposite of the new state.
     */
    method Click() returns (command: Option<AudioCommand>)
      modifies this
      ensures hasAudio ==> isPlaying == !old(isPlaying)
      ensures hasAudio ==> command == Some(if old(isPlaying) then Pause else Play)
      ensures hasAudio ==> icon == IconFor(isPlaying)
      ensures !hasAudio ==> command == None && isPlaying == old(isPlaying) && icon == old(icon)
    {
      if !hasAudio {
        return None;
      }
      if isPlaying {
        command := Some(Pause);
        icon := PlayIcon;
      } else {
        command := Some(Play);
        icon := PauseIcon;
      }
      isPlaying := !isPlaying;
    }
  }
}
