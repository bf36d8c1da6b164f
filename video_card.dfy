/** components/VideoCard.tsx: a gallery card for one generated item. Cards
    broadcast when they start playing so that every other card pauses; a card
    loads its media once and ignores results that arrive after it unmounts;
    sharing falls back to a download. */
module VideoCard {
  import opened Common
  import opened Text
  import GeminiService

  /** The box the media is shown in. */
  datatype RatioBox = Box16x9 | Box9x16 | Box1x1 | Box4x3 | Box3x4

  /** The width and height of a stored ratio, in the units of the ratio. */
  function RatioSides(a: AspectRatio): (int, int)
  {
    match a
    case AR16x9 => (16, 9)
    case AR9x16 => (9, 16)
    case AR1x1 => (1, 1)
    case AR4x3 => (4, 3)
    case AR3x4 => (3, 4)
  }

  /** The width and height of a box, in the units of its ratio. */
  function BoxSides(b: RatioBox): (int, int)
  {
    match b
    case Box16x9 => (16, 9)
    case Box9x16 => (9, 16)
    case Box1x1 => (1, 1)
    case Box4x3 => (4, 3)
    case Box3x4 => (3, 4)
  }

  /** getAspectRatioClass: each of the five ratio texts gets a box of its
      own proportions; any other text gets 9/16. */
  function BoxOf(ratio: string): (b: RatioBox)
    ensures forall a :: ratio == AspectRatioText(a) ==> BoxSides(b) == RatioSides(a)
  {
    if ratio == "16:9" then Box16x9
    else if ratio == "9:16" then Box9x16
    else if ratio == "1:1" then Box1x1
    else if ratio == "4:3" then Box4x3
    else if ratio == "3:4" then Box3x4
    else Box9x16
  }

  /** A text that is none of the five ratios falls back to 9/16, and two
      different ratios never share a box. */
  lemma BoxOfCases(ratio: string, a: AspectRatio, c: AspectRatio)
    ensures (forall r :: ratio != AspectRatioText(r)) ==> BoxOf(ratio) == Box9x16
    ensures a != c ==> BoxOf(AspectRatioText(a)) != BoxOf(AspectRatioText(c))
  {
    if forall r :: ratio != AspectRatioText(r) {
      assert ratio != AspectRatioText(AR16x9) && ratio != AspectRatioText(AR9x16);
      assert ratio != AspectRatioText(AR1x1) && ratio != AspectRatioText(AR4x3);
      assert ratio != AspectRatioText(AR3x4);
    }
  }

  /** handleSeek: the time for a slider value `value` (0 to 100). */
  function SeekTime(value: real, duration: real): (t: real)
    ensures 0.0 <= value <= 100.0 && duration >= 0.0 ==> 0.0 <= t <= duration
    ensures value == 100.0 ==> t == duration
  {
    PercentOf(value, duration);
    value / 100.0 * duration
  }

  lemma PercentOf(value: real, d: real)
    ensures 0.0 <= value <= 100.0 && d >= 0.0 ==> 0.0 <= value / 100.0 * d <= d
  {
    if 0.0 <= value <= 100.0 && d >= 0.0 {
      var f := value / 100.0;
      assert 0.0 <= f <= 1.0;
      assert d - f * d == (1.0 - f) * d;
      assert (1.0 - f) * d >= 0.0;
    }
  }

  /** handleTimeUpdate: the progress for the current time, as a percentage
      of the duration; None stands for the NaN of a zero duration. */
  function ProgressOf(current: real, total: real): (p: Option<real>)
    ensures p.None? <==> total == 0.0
    ensures p.Some? && total > 0.0 && 0.0 <= current <= total ==> 0.0 <= p.value <= 100.0
  {
    if total == 0.0 then None else Some(current / total * 100.0)
  }

  /** Seeking to a percentage then reading the progress gives the same
      percentage back. */
  lemma SeekThenProgress(value: real, duration: real)
    requires duration > 0.0
    ensures ProgressOf(SeekTime(value, duration), duration) == Some(value)
  {
    var t := SeekTime(value, duration);
    assert t / duration == value / 100.0;
  }

  const FallbackPrefix: string := "instasplit-"
  const ShareUnavailable: string := "Sharing unavailable. File downloaded."
  const ShareFailed: string := "Sharing failed."

  function Extension(kind: MediaType): (e: string)
    ensures |e| == 3
  {
    match kind
    case Video => "mp4"
    case Image => "jpg"
  }

  /** The name of the download made when sharing is unavailable. */
  function FallbackName(id: string, kind: MediaType): (r: string)
    ensures StartsWith(r, FallbackPrefix)
    ensures r[|r| - 4..] == "." + Extension(kind)
  {
    var r := FallbackPrefix + id + "." + Extension(kind);
    assert r[..|FallbackPrefix|] == FallbackPrefix;
    r
  }

  /** Different items, or a video and an image, never get the same name. */
  lemma FallbackNameInjective(id1: string, k1: MediaType, id2: string, k2: MediaType)
    requires FallbackName(id1, k1) == FallbackName(id2, k2)
    ensures id1 == id2 && k1 == k2
  {
    var n := FallbackName(id1, k1);
    assert |id1| == |id2|;
    assert id1 == n[|FallbackPrefix|..|FallbackPrefix| + |id1|];
    assert id2 == n[|FallbackPrefix|..|FallbackPrefix| + |id2|];
    assert Extension(k1) == n[|n| - 3..] == Extension(k2);
  }

  /** All mounted cards and the one window event they listen to. `paused`
      is each video element's state, `isPlaying` what each card shows. */
  class PlayerBoard {
    var ids: seq<string>
    var paused: seq<bool>
    var isPlaying: seq<bool>

    /** Of two cards with different ids at most one is playing, and no card
        shows "playing" for a paused element. */
    ghost predicate Valid()
      reads this
    {
      && |paused| == |ids| && |isPlaying| == |ids|
      && (forall j :: 0 <= j < |ids| && isPlaying[j] ==> !paused[j])
      && (forall i, j :: 0 <= i < |ids| && 0 <= j < |ids| && ids[i] != ids[j] ==> paused[i] || paused[j])
    }

    constructor()
      ensures Valid() && ids == [] && paused == [] && isPlaying == []
    {
      ids, paused, isPlaying := [], [], [];
    }

    /** A card mounts: its video starts paused. */
    method Mount(id: string)
      requires Valid()
      modifies this
      ensures Valid()
      ensures ids == old(ids) + [id] && paused == old(paused) + [true] && isPlaying == old(isPlaying) + [false]
    {
      ids, paused, isPlaying := ids + [id], paused + [true], isPlaying + [false];
    }

    /** A card unmounts and stops listening. */
    method Unmount(k: nat)
      requires Valid() && k < |ids|
      modifies this
      ensures Valid()
      ensures ids == old(ids[..k] + ids[k + 1..])
      ensures paused == old(paused[..k] + paused[k + 1..])
      ensures isPlaying == old(isPlaying[..k] + isPlaying[k + 1..])
    {
      ghost var oi, op := ids, paused;
      ids, paused, isPlaying := ids[..k] + ids[k + 1..], paused[..k] + paused[k + 1..],
                                isPlaying[..k] + isPlaying[k + 1..];
      forall i, j | 0 <= i < |ids| && 0 <= j < |ids| && ids[i] != ids[j]
        ensures paused[i] || paused[j]
      {
        var i' := if i < k then i else i + 1;
        var j' := if j < k then j else j + 1;
        assert ids[i] == oi[i'] && ids[j] == oi[j'] && paused[i] == op[i'] && paused[j] == op[j'];
      }
    }

    /** Card k starts playing (onPlay, handlePlay): it shows "playing" and
        broadcasts its id; every listener with another id whose video is not
        paused pauses it and shows "paused". */
    method Play(k: nat)
      requires Valid() && k < |ids|
      modifies this`paused, this`isPlaying
      ensures Valid()
      ensures |paused| == |ids| && |isPlaying| == |ids|
      ensures !paused[k] && isPlaying[k]
      ensures forall j :: 0 <= j < |ids| && ids[j] != ids[k] ==> paused[j] && !isPlaying[j]
      ensures forall j :: 0 <= j < |ids| && j != k && ids[j] == ids[k] ==>
        paused[j] == old(paused[j]) && isPlaying[j] == old(isPlaying[j])
    {
      paused, isPlaying := paused[k := false], isPlaying[k := true];
      var j := 0;
      while j < |ids|
        invariant 0 <= j <= |ids|
        invariant |paused| == |ids| && |isPlaying| == |ids|
        invariant !paused[k] && isPlaying[k]
        invariant forall i :: 0 <= i < j && ids[i] != ids[k] ==> paused[i] && !isPlaying[i]
        invariant forall i :: 0 <= i < |ids| && i != k && (j <= i || ids[i] == ids[k]) ==>
          paused[i] == old(paused[i]) && isPlaying[i] == old(isPlaying[i])
      {
        if ids[j] != ids[k] && !paused[j] {
          paused, isPlaying := paused[j := true], isPlaying[j := false];
        } else if ids[j] != ids[k] {
          assert !isPlaying[j];
        }
        j := j + 1;
      }
      assert forall i :: 0 <= i < |ids| && isPlaying[i] ==> !paused[i] by {
        forall i | 0 <= i < |ids| && isPlaying[i] ensures !paused[i] {
          if i != k && ids[i] == ids[k] {
            assert old(isPlaying[i]);
          }
        }
      }
    }

    /** Card k is paused (onPause). */
    method Pause(k: nat)
      requires Valid() && k < |ids|
      modifies this`paused, this`isPlaying
      ensures Valid()
      ensures paused == old(paused)[k := true] && isPlaying == old(isPlaying)[k := false]
    {
      paused, isPlaying := paused[k := true], isPlaying[k := false];
    }
  }

  /** Playing one card of a gallery with distinct ids leaves every other
      card paused. */
  lemma OnlyOnePlays(ids: seq<string>, paused: seq<bool>, k: nat)
    requires |paused| == |ids| && k < |ids| && !paused[k]
    requires forall i, j :: 0 <= i < j < |ids| ==> ids[i] != ids[j]
    requires forall i, j :: 0 <= i < |ids| && 0 <= j < |ids| && ids[i] != ids[j] ==> paused[i] || paused[j]
    ensures forall j :: 0 <= j < |ids| && j != k ==> paused[j]
  {
    forall j | 0 <= j < |ids| && j != k ensures paused[j] {
      if j < k {
        assert ids[j] != ids[k];
      } else {
        assert ids[k] != ids[j];
      }
    }
  }

  /** One card's media and share state. */
  class MediaCard {
    const item: GeneratedMedia
    var mounted: bool
    var mediaUrl: Option<string>
    var error: bool
    var isSharing: bool
    var downloads: seq<(string, string)>
    var alerts: seq<string>

    /** An image shows its uri from the start; a video has nothing to show
        until its fetch completes. */
    ghost predicate Valid()
      reads this
    {
      && (item.kind == Image ==> mediaUrl == Some(item.uri) && !error)
      && (error ==> mediaUrl.None?)
      && !isSharing
    }

    /** The card mounts and its load effect runs: an image uses its uri
        directly, a video starts fetching. */
    constructor(item: GeneratedMedia)
      ensures Valid() && this.item == item && mounted
      ensures mediaUrl == (if item.kind == Image then Some(item.uri) else None)
      ensures !error && downloads == [] && alerts == []
    {
      this.item := item;
      mounted, error, isSharing, downloads, alerts := true, false, false, [], [];
      mediaUrl := if item.kind == Image then Some(item.uri) else None;
    }

    /** The card unmounts; the load effect's flag is cleared. */
    method Unmount()
      requires Valid()
      modifies this`mounted
      ensures Valid() && !mounted
    {
      mounted := false;
    }

    /** fetchAuthenticatedVideoUrl settles; `download` is the outcome of its
        download. It resolves with the object URL or, on failure, with the
        URI itself, and never rejects, so the card's error state is never
        set. Nothing changes once the card has unmounted. */
    method OnFetched(download: Result<string>)
      requires Valid() && item.kind == Video && mediaUrl.None? && !error
      modifies this`mediaUrl
      ensures Valid() && !error
      ensures !mounted ==> mediaUrl.None?
      ensures mounted ==> mediaUrl == Some(GeminiService.AuthenticatedVideoUrl(item.uri, download))
      ensures mounted && download.Err? ==> mediaUrl == Some(item.uri)
    {
      if mounted {
        mediaUrl := Some(GeminiService.AuthenticatedVideoUrl(item.uri, download));
      }
    }

    /** handleShare, from the click to its `finally`. `shared` is what
        shareMedia resolved with (false when sharing is unavailable), or the
        error it threw. Without a media URL the button does nothing. */
    method HandleShare(shared: Result<bool>)
      requires Valid()
      modifies this`isSharing, this`downloads, this`alerts
      ensures Valid()
      ensures mediaUrl.None? || shared == Ok(true) ==> downloads == old(downloads) && alerts == old(alerts)
      ensures mediaUrl.Some? && shared == Ok(false) ==>
        && downloads == old(downloads) + [(mediaUrl.value, FallbackName(item.id, item.kind))]
        && alerts == old(alerts) + [ShareUnavailable]
      ensures mediaUrl.Some? && shared.Err? ==> downloads == old(downloads) && alerts == old(alerts) + [ShareFailed]
    {
      if mediaUrl.None? {
        return;
      }
      isSharing := true;
      match shared {
        case Ok(success) =>
          if !success {
            downloads := downloads + [(mediaUrl.value, FallbackName(item.id, item.kind))];
            alerts := alerts + [ShareUnavailable];
          }
        case Err(_) =>
          alerts := alerts + [ShareFailed];
      }
      isSharing := false;
    }
  }
}
