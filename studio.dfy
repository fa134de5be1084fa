/**
 * The live-broadcast studio: the participant roster and its stage, the
 * banner overlays, the multistream destinations, the chat log, and the
 * broadcast/recording session with its one-second timer.
 */
module Studio {
  import opened Wrappers
  import opened Text
  import opened Sequences
  import opened Entities

  // ----- display helpers -----

  /** `formatTime`: whole minutes, a colon, then the remaining seconds, each padded to two digits. */
  function FormatTime(seconds: nat): string
  {
    PadStart(NatToDecimal(seconds / 60), 2, '0') + ":" + PadStart(NatToDecimal(seconds % 60), 2, '0')
  }

  /** Digits, a colon, then exactly two digits: the shape `formatTime` produces. */
  predicate TimeShaped(r: string)
  {
    && |r| >= 5 && r[|r| - 3] == ':'
    && (forall k :: 0 <= k < |r| - 3 ==> IsDigit(r[k]))
    && IsDigit(r[|r| - 2]) && IsDigit(r[|r| - 1])
  }

  /** Reads a formatted time back: the minutes before the colon times 60, plus the seconds digits. */
  function TimeValue(r: string): nat
    requires TimeShaped(r)
  {
    DecimalValue(r[..|r| - 3]) * 60 + DecimalValue(r[|r| - 2..])
  }

  /** The two-digit padding of a number: digits only, exactly two below 100. */
  lemma PaddedShape(n: nat)
    ensures var p := PadStart(NatToDecimal(n), 2, '0');
      |p| >= 2 && (n < 100 ==> |p| == 2) && forall k :: 0 <= k < |p| ==> IsDigit(p[k])
  {
    var d := NatToDecimal(n);
    if n < 100 && n >= 10 {
      assert d == NatToDecimal(n / 10) + [DigitChar(n % 10)];
    }
    var p := PadStart(d, 2, '0');
    if |d| < 2 {
      assert p == Repeat('0', 2 - |d|) + d;
    } else {
      assert p == d;
    }
  }

  /** Padding with zeros keeps the value. */
  lemma PaddedValue(n: nat)
    ensures var p := PadStart(NatToDecimal(n), 2, '0');
      (forall k :: 0 <= k < |p| ==> IsDigit(p[k])) && DecimalValue(p) == n
  {
    PaddedShape(n);
    var d := NatToDecimal(n);
    var p := PadStart(d, 2, '0');
    DecimalRoundTrip(n);
    if |d| < 2 {
      DecimalLeadingZeros(2 - |d|, d);
      assert p == Repeat('0', 2 - |d|) + d;
    } else {
      assert p == d;
    }
  }

  /** Minute digits, a colon and two second digits make a time-shaped string that splits back into its parts. */
  lemma JoinedTime(m: string, sec: string)
    requires |m| >= 2 && forall k :: 0 <= k < |m| ==> IsDigit(m[k])
    requires |sec| == 2 && IsDigit(sec[0]) && IsDigit(sec[1])
    ensures var r := m + ":" + sec;
      TimeShaped(r) && r[..|r| - 3] == m && r[|r| - 2..] == sec
  {
    var r := m + ":" + sec;
    assert r[..|r| - 3] == m;
    assert r[|r| - 2..] == sec;
  }

  /**
   * What `formatTime` promises: at least two minute digits, a colon, two
   * second digits worth less than 60, five characters in all below 100
   * minutes, and reading it back gives the input.
   */
  lemma {:induction false} FormatTimeRoundTrip(seconds: nat)
    ensures TimeShaped(FormatTime(seconds))
    ensures DecimalValue(FormatTime(seconds)[|FormatTime(seconds)| - 2..]) < 60
    ensures seconds < 6000 ==> |FormatTime(seconds)| == 5
    ensures TimeValue(FormatTime(seconds)) == seconds
  {
    var m := PadStart(NatToDecimal(seconds / 60), 2, '0');
    var s := PadStart(NatToDecimal(seconds % 60), 2, '0');
    PaddedShape(seconds / 60);
    PaddedShape(seconds % 60);
    PaddedValue(seconds / 60);
    PaddedValue(seconds % 60);
    JoinedTime(m, s);
    assert seconds == (seconds / 60) * 60 + seconds % 60;
  }

  /** `getGridClass`: the column count of the stage grid for a number of tiles. */
  function GridClass(count: int): (r: string)
    ensures r == "grid-cols-1" <==> count <= 1
    ensures r == "grid-cols-2" <==> 2 <= count <= 4
    ensures r == "grid-cols-3" <==> count >= 5
  {
    if count <= 1 then "grid-cols-1"
    else if count <= 2 then "grid-cols-2"
    else if count <= 4 then "grid-cols-2"
    else "grid-cols-3"
  }

  // ----- participants -----

  datatype MediaKind = Camera | Screen

  /** A stage occupant; the live media stream handle is not modelled. */
  datatype Participant = Participant(
    id: string,
    name: string,
    kind: MediaKind,
    isLocal: bool,
    isOnStage: bool,
    avatarUrl: Option<string>,
    muted: bool,
    videoOff: bool)

  /** `toggleStage(id)`: flips the stage flag of the participants with that id. */
  function StageToggled(ps: seq<Participant>, id: string): (r: seq<Participant>)
    ensures |r| == |ps|
    ensures forall k :: 0 <= k < |ps| ==> r[k].isOnStage == (ps[k].isOnStage != (ps[k].id == id))
    ensures forall k :: 0 <= k < |ps| ==> r[k].(isOnStage := ps[k].isOnStage) == ps[k]
  {
    if ps == [] then []
    else [if ps[0].id == id then ps[0].(isOnStage := !ps[0].isOnStage) else ps[0]] + StageToggled(ps[1..], id)
  }

  /** The mute button: flips `muted` on the local participants only. */
  function MuteToggled(ps: seq<Participant>): (r: seq<Participant>)
    ensures |r| == |ps|
    ensures forall k :: 0 <= k < |ps| ==> r[k].muted == (ps[k].muted != ps[k].isLocal)
    ensures forall k :: 0 <= k < |ps| ==> r[k].(muted := ps[k].muted) == ps[k]
  {
    if ps == [] then []
    else [if ps[0].isLocal then ps[0].(muted := !ps[0].muted) else ps[0]] + MuteToggled(ps[1..])
  }

  /** The camera button: flips `videoOff` on the local participants only. */
  function CameraToggled(ps: seq<Participant>): (r: seq<Participant>)
    ensures |r| == |ps|
    ensures forall k :: 0 <= k < |ps| ==> r[k].videoOff == (ps[k].videoOff != ps[k].isLocal)
    ensures forall k :: 0 <= k < |ps| ==> r[k].(videoOff := ps[k].videoOff) == ps[k]
  {
    if ps == [] then []
    else [if ps[0].isLocal then ps[0].(videoOff := !ps[0].videoOff) else ps[0]] + CameraToggled(ps[1..])
  }

  /** Each toggle undoes itself. */
  lemma TogglesAreInvolutions(ps: seq<Participant>, id: string)
    ensures StageToggled(StageToggled(ps, id), id) == ps
    ensures MuteToggled(MuteToggled(ps)) == ps
    ensures CameraToggled(CameraToggled(ps)) == ps
  {
    var a, b, c := StageToggled(StageToggled(ps, id), id), MuteToggled(MuteToggled(ps)), CameraToggled(CameraToggled(ps));
    assert forall k :: 0 <= k < |ps| ==> a[k] == ps[k];
    assert forall k :: 0 <= k < |ps| ==> b[k] == ps[k];
    assert forall k :: 0 <= k < |ps| ==> c[k] == ps[k];
  }

  /** The participants on stage, in roster order: exactly those whose flag is set. */
  function OnStage(ps: seq<Participant>): (r: seq<Participant>)
    ensures forall p :: p in r <==> p in ps && p.isOnStage
    ensures Subsequence(r, ps)
  {
    if ps == [] then []
    else
      var rest := OnStage(ps[1..]);
      assert ps == [ps[0]] + ps[1..];
      if ps[0].isOnStage then
        SubsequenceCons(ps[0], rest, ps[1..]);
        [ps[0]] + rest
      else
        SubsequenceSkip(ps[0], rest, ps[1..]);
        rest
  }

  /** The stage filter distributes over concatenation, so each on-stage entry keeps its multiplicity. */
  lemma {:induction false} OnStageConcat(a: seq<Participant>, b: seq<Participant>)
    ensures OnStage(a + b) == OnStage(a) + OnStage(b)
    decreases |a|
  {
    if a == [] {
      assert a + b == b;
    } else {
      assert (a + b)[0] == a[0] && (a + b)[1..] == a[1..] + b;
      OnStageConcat(a[1..], b);
    }
  }

  // ----- banners -----

  datatype BannerStyle = Static | Ticker

  datatype Banner = Banner(id: string, text: string, style: BannerStyle, isActive: bool)

  predicate AtMostOneActive(bs: seq<Banner>)
  {
    forall i, j :: 0 <= i < |bs| && 0 <= j < |bs| && bs[i].isActive && bs[j].isActive ==> i == j
  }

  predicate UniqueBannerIds(bs: seq<Banner>)
  {
    forall i, j :: 0 <= i < j < |bs| ==> bs[i].id != bs[j].id
  }

  predicate BannerIdFresh(bs: seq<Banner>, id: string)
  {
    forall k :: 0 <= k < |bs| ==> bs[k].id != id
  }

  /** Every banner, made inactive. */
  function Deactivated(bs: seq<Banner>): (r: seq<Banner>)
    ensures |r| == |bs|
    ensures forall k :: 0 <= k < |bs| ==> r[k] == bs[k].(isActive := false)
  {
    if bs == [] then [] else [bs[0].(isActive := false)] + Deactivated(bs[1..])
  }

  /**
   * `createBanner`: blank text changes nothing; otherwise every banner is
   * switched off and one active static banner with the text is appended.
   */
  function WithNewBanner(bs: seq<Banner>, id: string, text: string): (r: seq<Banner>)
    ensures Trim(text) == "" ==> r == bs
    ensures Trim(text) != "" ==>
              && |r| == |bs| + 1
              && r[|bs|] == Banner(id, text, Static, true)
              && forall k :: 0 <= k < |bs| ==> r[k] == bs[k].(isActive := false)
  {
    if Trim(text) == "" then bs else Deactivated(bs) + [Banner(id, text, Static, true)]
  }

  /**
   * Clicking a banner: that banner's flag flips and every other banner is
   * switched off; nothing but the flags changes.
   */
  function BannerClicked(bs: seq<Banner>, id: string): (r: seq<Banner>)
    ensures |r| == |bs|
    ensures forall k :: 0 <= k < |bs| ==> r[k].isActive == (bs[k].id == id && !bs[k].isActive)
    ensures forall k :: 0 <= k < |bs| ==> r[k].(isActive := bs[k].isActive) == bs[k]
  {
    if bs == [] then []
    else
      [if bs[0].id == id then bs[0].(isActive := !bs[0].isActive) else bs[0].(isActive := false)]
      + BannerClicked(bs[1..], id)
  }

  /** After a non-blank creation exactly the new banner is active, and the ids stay unique. */
  lemma CreateBannerActivatesOnlyNew(bs: seq<Banner>, id: string, text: string)
    requires UniqueBannerIds(bs) && BannerIdFresh(bs, id)
    ensures var r := WithNewBanner(bs, id, text);
      && UniqueBannerIds(r)
      && (Trim(text) != "" ==> forall k :: 0 <= k < |r| ==> (r[k].isActive <==> k == |bs|))
      && (Trim(text) == "" ==> r == bs)
  {
    var r := WithNewBanner(bs, id, text);
    if Trim(text) != "" {
      forall i, j | 0 <= i < j < |r| ensures r[i].id != r[j].id {
        if j < |bs| {
          assert r[i].id == bs[i].id && r[j].id == bs[j].id;
        } else {
          assert r[i].id == bs[i].id && r[j].id == id;
        }
      }
    }
  }

  /** A sequence whose only active banner sits at one position has at most one active banner. */
  lemma SingleActive(bs: seq<Banner>, n: int)
    requires forall k :: 0 <= k < |bs| ==> (bs[k].isActive <==> k == n)
    ensures AtMostOneActive(bs)
  {
  }

  /** Clicking keeps at most one banner active, as long as ids are unique. */
  lemma ClickKeepsAtMostOneActive(bs: seq<Banner>, id: string)
    requires UniqueBannerIds(bs)
    ensures AtMostOneActive(BannerClicked(bs, id)) && UniqueBannerIds(BannerClicked(bs, id))
  {
  }

  // ----- destinations -----

  datatype Platform = YouTube | Facebook | LinkedIn | Twitch | Custom

  /** The platform's tag as the program spells it. */
  function PlatformTag(p: Platform): string
  {
    match p
    case YouTube => "youtube"
    case Facebook => "facebook"
    case LinkedIn => "linkedin"
    case Twitch => "twitch"
    case Custom => "custom"
  }

  datatype Destination = Destination(
    id: string,
    platform: Platform,
    name: string,
    connected: bool,
    enabled: bool,
    streamKey: Option<string>,
    url: Option<string>)

  /** The fabricated display name: "Custom RTMP", or the capitalised tag followed by " Channel". */
  function DestinationName(p: Platform): (r: string)
    ensures p == Custom ==> r == "Custom RTMP"
    ensures p != Custom ==> r == [UpperChar(PlatformTag(p)[0])] + PlatformTag(p)[1..] + " Channel"
  {
    if p == Custom then "Custom RTMP"
    else
      var tag := PlatformTag(p);
      [UpperChar(tag[0])] + tag[1..] + " Channel"
  }

  /**
   * The destination `addDestination` creates: enabled and connected, with
   * the form's URL and key only for a custom target.
   */
  function NewDestination(id: string, platform: Platform, rtmpUrl: string, rtmpKey: string): (d: Destination)
    ensures d.id == id && d.platform == platform && d.enabled && d.connected
    ensures d.url.Some? <==> platform == Custom
    ensures d.streamKey.Some? <==> platform == Custom
    ensures platform == Custom ==> d.url == Some(rtmpUrl) && d.streamKey == Some(rtmpKey)
  {
    Destination(
      id, platform, DestinationName(platform), true, true,
      if platform == Custom then Some(rtmpKey) else None,
      if platform == Custom then Some(rtmpUrl) else None)
  }

  predicate HasDestination(ds: seq<Destination>, id: string)
  {
    exists k :: 0 <= k < |ds| && ds[k].id == id
  }

  /** `toggleDestination(id)`: flips `enabled` on the matching destinations only. */
  function DestinationToggled(ds: seq<Destination>, id: string): (r: seq<Destination>)
    ensures |r| == |ds|
    ensures forall k :: 0 <= k < |ds| ==> r[k].enabled == (ds[k].enabled != (ds[k].id == id))
    ensures forall k :: 0 <= k < |ds| ==> r[k].(enabled := ds[k].enabled) == ds[k]
  {
    if ds == [] then []
    else [if ds[0].id == id then ds[0].(enabled := !ds[0].enabled) else ds[0]] + DestinationToggled(ds[1..], id)
  }

  /** `removeDestination(id)`: drops exactly the matching destinations, keeping the order of the rest. */
  function WithoutDestination(ds: seq<Destination>, id: string): (r: seq<Destination>)
    ensures !HasDestination(r, id)
    ensures forall d :: d in ds && d.id != id ==> d in r
    ensures Subsequence(r, ds)
    ensures !HasDestination(ds, id) ==> r == ds
  {
    if ds == [] then []
    else
      var rest := WithoutDestination(ds[1..], id);
      assert ds == [ds[0]] + ds[1..];
      if ds[0].id != id then
        SubsequenceCons(ds[0], rest, ds[1..]);
        [ds[0]] + rest
      else
        SubsequenceSkip(ds[0], rest, ds[1..]);
        rest
  }

  /** Removal distributes over concatenation, so each kept destination keeps its multiplicity. */
  lemma {:induction false} WithoutDestinationConcat(a: seq<Destination>, b: seq<Destination>, id: string)
    ensures WithoutDestination(a + b, id) == WithoutDestination(a, id) + WithoutDestination(b, id)
    decreases |a|
  {
    if a == [] {
      assert a + b == b;
    } else {
      assert (a + b)[0] == a[0] && (a + b)[1..] == a[1..] + b;
      WithoutDestinationConcat(a[1..], b, id);
    }
  }

  /** Adding a destination with a fresh id and then removing that id restores the list. */
  lemma {:induction false} AddThenRemoveDestination(ds: seq<Destination>, d: Destination)
    requires !HasDestination(ds, d.id)
    ensures WithoutDestination(ds + [d], d.id) == ds
    decreases |ds|
  {
    if ds == [] {
      assert [] + [d] == [d];
      assert [d][1..] == [];
    } else {
      assert (ds + [d])[1..] == ds[1..] + [d];
      AddThenRemoveDestination(ds[1..], d);
      assert ds == [ds[0]] + ds[1..];
    }
  }

  /** The enabled destinations, in order. */
  function EnabledDestinations(ds: seq<Destination>): (r: seq<Destination>)
    ensures forall d :: d in r <==> d in ds && d.enabled
    ensures Subsequence(r, ds)
  {
    if ds == [] then []
    else
      var rest := EnabledDestinations(ds[1..]);
      assert ds == [ds[0]] + ds[1..];
      if ds[0].enabled then
        SubsequenceCons(ds[0], rest, ds[1..]);
        [ds[0]] + rest
      else
        SubsequenceSkip(ds[0], rest, ds[1..]);
        rest
  }

  /** The enabled filter distributes over concatenation, so each enabled entry keeps its multiplicity. */
  lemma {:induction false} EnabledDestinationsConcat(a: seq<Destination>, b: seq<Destination>)
    ensures EnabledDestinations(a + b) == EnabledDestinations(a) + EnabledDestinations(b)
    decreases |a|
  {
    if a == [] {
      assert a + b == b;
    } else {
      assert (a + b)[0] == a[0] && (a + b)[1..] == a[1..] + b;
      EnabledDestinationsConcat(a[1..], b);
    }
  }

  // ----- studio settings -----

  datatype Resolution = Res720p | Res1080p | Res4k
  datatype FrameRate = Fps30 | Fps60

  datatype StudioSettings = StudioSettings(
    resolution: Resolution,
    frameRate: FrameRate,
    audioEchoCancel: bool,
    showNames: bool,
    mirrorVideo: bool,
    destinations: seq<Destination>)

  /** One `handleUpdateSettings(key, value)` call. */
  datatype SettingUpdate =
    | SetResolution(resolution: Resolution)
    | SetFrameRate(frameRate: FrameRate)
    | SetEchoCancel(echoCancel: bool)
    | SetShowNames(showNames: bool)
    | SetMirror(mirror: bool)
    | SetDestinations(destinations: seq<Destination>)

  /** `{ ...prev, [key]: value }`: the named setting takes the value, the others are kept. */
  function WithSetting(s: StudioSettings, u: SettingUpdate): (r: StudioSettings)
    ensures u.SetResolution? ==> r == s.(resolution := u.resolution)
    ensures u.SetFrameRate? ==> r == s.(frameRate := u.frameRate)
    ensures u.SetEchoCancel? ==> r == s.(audioEchoCancel := u.echoCancel)
    ensures u.SetShowNames? ==> r == s.(showNames := u.showNames)
    ensures u.SetMirror? ==> r == s.(mirrorVideo := u.mirror)
    ensures u.SetDestinations? ==> r == s.(destinations := u.destinations)
  {
    match u
    case SetResolution(v) => s.(resolution := v)
    case SetFrameRate(v) => s.(frameRate := v)
    case SetEchoCancel(v) => s.(audioEchoCancel := v)
    case SetShowNames(v) => s.(showNames := v)
    case SetMirror(v) => s.(mirrorVideo := v)
    case SetDestinations(v) => s.(destinations := v)
  }

  const InitialStudioSettings := StudioSettings(Res1080p, Fps30, true, true, true, [])

  // ----- chat -----

  datatype ChatMessage = ChatMessage(id: string, sender: string, text: string, time: string, avatarColor: string)

  /** `sendMessage`: blank input changes nothing; otherwise one message from "You" is appended. */
  function WithMessage(msgs: seq<ChatMessage>, id: string, text: string): (r: seq<ChatMessage>)
    ensures Trim(text) == "" ==> r == msgs
    ensures Trim(text) != "" ==> r == msgs + [ChatMessage(id, "You", text, "Live", "bg-red-600")]
  {
    if Trim(text) == "" then msgs else msgs + [ChatMessage(id, "You", text, "Live", "bg-red-600")]
  }

  // ----- the broadcast / recording session -----

  /** The session flags, the elapsed seconds and the notices they drive. */
  datatype Clock = Clock(
    isLive: bool,
    isRecording: bool,
    timer: nat,
    showDownloadModal: bool,
    reason: string,
    showSettings: bool)

  const InitialClock := Clock(false, false, 0, false, "", false)
  const WrapReason := "Broadcast Wrapped."
  const NoDestinationAlert := "No destinations enabled! Please add a target in Settings."

  /** The limit notice; `max / 60` is `Math.floor(max / 60)` since the divisor is positive. */
  function LimitReason(max: int): string
  {
    "Broadcast Limit Reached (" + IntToDecimal(max / 60) + " mins max)."
  }

  predicate Active(c: Clock)
  {
    c.isLive || c.isRecording
  }

  /**
   * One firing of the one-second interval, which only runs while live or
   * recording: the timer advances, unless it reaches the limit, in which case
   * both flags drop, the timer resets and the wrap-up notice opens.
   */
  function Ticked(c: Clock, max: int): (r: Clock)
    requires Active(c)
    ensures c.timer + 1 < max ==> r == c.(timer := c.timer + 1)
    ensures c.timer + 1 >= max ==>
              r == c.(isLive := false, isRecording := false, timer := 0,
                      showDownloadModal := true, reason := LimitReason(max))
  {
    var next := c.timer + 1;
    if next >= max then
      c.(isLive := false, isRecording := false, reason := LimitReason(max),
         showDownloadModal := true, timer := 0)
    else c.(timer := next)
  }

  /**
   * `toggleLive`: going live needs an enabled destination (without one the
   * settings open and nothing else changes); going live resets the timer;
   * stopping opens the wrap-up notice and leaves the timer alone.
   */
  function LiveToggled(c: Clock, enabled: seq<Destination>): (r: Clock)
    ensures !c.isLive && enabled == [] ==> r == c.(showSettings := true)
    ensures !c.isLive && enabled != [] ==> r == c.(isLive := true, timer := 0)
    ensures c.isLive ==> r == c.(isLive := false, showDownloadModal := true, reason := WrapReason)
  {
    if !c.isLive && |enabled| == 0 then c.(showSettings := true)
    else if c.isLive then c.(reason := WrapReason, showDownloadModal := true, isLive := false)
    else c.(isLive := true, timer := 0)
  }

  /**
   * The recording button: starting touches neither the timer nor the live
   * flag; halting opens the wrap-up notice without changing its text.
   */
  function RecordClicked(c: Clock): (r: Clock)
    ensures !c.isRecording ==> r == c.(isRecording := true)
    ensures c.isRecording ==> r == c.(isRecording := false, showDownloadModal := true)
  {
    if c.isRecording then c.(isRecording := false, showDownloadModal := true)
    else c.(isRecording := true)
  }

  /** `n` seconds pass: the interval fires once a second while the session is active. */
  function Elapsed(c: Clock, max: int, n: nat): Clock
    decreases n
  {
    if n == 0 || !Active(c) then c else Elapsed(Ticked(c, max), max, n - 1)
  }

  /** Below the limit, `n` seconds advance the timer by `n` and change nothing else. */
  lemma {:induction false} ElapsedBelowLimit(c: Clock, max: int, n: nat)
    requires Active(c) && c.timer + n < max
    ensures Elapsed(c, max, n) == c.(timer := c.timer + n)
    decreases n
  {
    if n > 0 {
      ElapsedBelowLimit(Ticked(c, max), max, n - 1);
    }
  }

  /**
   * From any active state under the limit, once the remaining seconds have
   * passed both flags are off, the timer is back at zero and the limit
   * notice is showing.
   */
  lemma {:induction false} ElapsedReachesLimit(c: Clock, max: int)
    requires Active(c) && c.timer < max
    ensures var r := Elapsed(c, max, max - c.timer);
      && !r.isLive && !r.isRecording && r.timer == 0
      && r.showDownloadModal && r.reason == LimitReason(max)
    decreases max - c.timer
  {
    if c.timer + 1 < max {
      ElapsedReachesLimit(Ticked(c, max), max);
    }
  }

  /** With a positive limit the timer never reaches it, whatever the user does. */
  lemma TimerStaysBelowLimit(c: Clock, max: int, enabled: seq<Destination>)
    requires 0 < max && c.timer < max
    ensures Active(c) ==> Ticked(c, max).timer < max
    ensures LiveToggled(c, enabled).timer < max
    ensures RecordClicked(c).timer < max
  {
  }

  /**
   * A five-second limit: start recording, go live with an enabled
   * destination, and five seconds later both flags are off, the timer is
   * zero and the limit notice is up.
   */
  lemma FiveSecondScenario(d: Destination)
    requires d.enabled
    ensures var c := LiveToggled(RecordClicked(InitialClock), [d]);
      var r := Elapsed(c, 5, 5);
      && c.isLive && c.isRecording && c.timer == 0
      && !r.isLive && !r.isRecording && r.timer == 0
      && r.showDownloadModal && r.reason == LimitReason(5)
  {
    var c := LiveToggled(RecordClicked(InitialClock), [d]);
    ElapsedReachesLimit(c, 5);
  }

  // ----- the initial roster -----

  const HostFallbackName := "You (Host)"

  /** `interviews.find(...)` for an approved live slot: the index of the first one, if any. */
  function FirstLiveSlot(xs: seq<Interview>): (r: Option<nat>)
    ensures r.Some? ==> r.value < |xs| && ApprovedLiveSlot(xs[r.value])
    ensures r.Some? ==> forall j :: 0 <= j < r.value ==> !ApprovedLiveSlot(xs[j])
    ensures r.None? ==> forall k :: 0 <= k < |xs| ==> !ApprovedLiveSlot(xs[k])
  {
    if xs == [] then None
    else if ApprovedLiveSlot(xs[0]) then Some(0)
    else
      match FirstLiveSlot(xs[1..])
      case None => None
      case Some(i) => Some(i + 1)
  }

  /**
   * The host is the founder of the first approved live booking; without
   * one it is the fallback name.
   */
  function HostName(xs: seq<Interview>): (r: string)
    ensures (forall k :: 0 <= k < |xs| ==> !ApprovedLiveSlot(xs[k])) ==> r == HostFallbackName
    ensures forall k :: 0 <= k < |xs| && ApprovedLiveSlot(xs[k]) && (forall j :: 0 <= j < k ==> !ApprovedLiveSlot(xs[j]))
              ==> r == xs[k].founderName
  {
    match FirstLiveSlot(xs)
    case None => HostFallbackName
    case Some(i) => xs[i].founderName
  }

  const MockGuests: seq<Participant> := [
    Participant("guest-1", "Sarah (Design)", Camera, false, false,
      Some("https://images.unsplash.com/photo-1494790108377-be9c29b29330?q=80&w=400&auto=format&fit=crop"), false, false),
    Participant("guest-2", "David (Tech)", Camera, false, false,
      Some("https://images.unsplash.com/photo-1599566150163-29194dcaad36?q=80&w=400&auto=format&fit=crop"), true, false),
    Participant("guest-3", "Michael (Marketing)", Camera, false, false,
      Some("https://images.unsplash.com/photo-1507003211169-0a1dd7228f2d?q=80&w=400&auto=format&fit=crop"), false, false),
    Participant("guest-4", "Elena (CEO)", Camera, false, false,
      Some("https://images.unsplash.com/photo-1573497019940-1c28c88b4f3e?q=80&w=400&auto=format&fit=crop"), false, false),
    Participant("guest-5", "James (Product)", Camera, false, false,
      Some("https://images.unsplash.com/photo-1472099645785-5658abf4ff4e?q=80&w=400&auto=format&fit=crop"), true, true)
  ]

  const InitialBanners: seq<Banner> := [
    Banner("b1", "Welcome to Founder Storys Studio! \U{1F680}", Ticker, true),
    Banner("b2", "Live Episode: Market Disruption", Static, false)
  ]

  const InitialChat: seq<ChatMessage> := [
    ChatMessage("1", "Producer", "Ready for broadcast. Audio levels look great.", "10:00 AM", "bg-slate-900")
  ]

  /** The studio screen's state. */
  class Session {
    var participants: seq<Participant>
    var banners: seq<Banner>
    var settings: StudioSettings
    var chat: seq<ChatMessage>
    var isLive: bool
    var isRecording: bool
    var timer: nat
    var showDownloadModal: bool
    var downloadModalReason: string
    var showSettings: bool

    /** The banner overlay invariant: unique ids and at most one active banner. */
    ghost predicate Valid()
      reads this
    {
      UniqueBannerIds(banners) && AtMostOneActive(banners)
    }

    function Snapshot(): Clock
      reads this
    {
      Clock(isLive, isRecording, timer, showDownloadModal, downloadModalReason, showSettings)
    }

    /** The screen as mounted: the local host on stage, the five guests off stage. */
    constructor (interviews: seq<Interview>)
      ensures Valid()
      ensures participants ==
                [Participant("local-1", HostName(interviews), Camera, true, true, None, false, false)] + MockGuests
      ensures banners == InitialBanners && chat == InitialChat
      ensures settings == InitialStudioSettings
      ensures Snapshot() == InitialClock
    {
      participants := [Participant("local-1", HostName(interviews), Camera, true, true, None, false, false)] + MockGuests;
      banners := InitialBanners;
      settings := InitialStudioSettings;
      chat := InitialChat;
      isLive, isRecording, timer := false, false, 0;
      showDownloadModal, downloadModalReason, showSettings := false, "", false;
    }

    method ToggleStage(id: string)
      modifies this
      ensures participants == StageToggled(old(participants), id)
      ensures banners == old(banners) && settings == old(settings) && chat == old(chat)
      ensures Snapshot() == old(Snapshot())
    {
      participants := StageToggled(participants, id);
    }

    method ToggleMute()
      modifies this
      ensures participants == MuteToggled(old(participants))
      ensures banners == old(banners) && settings == old(settings) && chat == old(chat)
      ensures Snapshot() == old(Snapshot())
    {
      participants := MuteToggled(participants);
    }

    method ToggleCamera()
      modifies this
      ensures participants == CameraToggled(old(participants))
      ensures banners == old(banners) && settings == old(settings) && chat == old(chat)
      ensures Snapshot() == old(Snapshot())
    {
      participants := CameraToggled(participants);
    }

    /** `id` stands for the clock reading that names the new banner. */
    method CreateBanner(id: string, text: string)
      requires Valid() && BannerIdFresh(banners, id)
      modifies this
      ensures Valid()
      ensures banners == WithNewBanner(old(banners), id, text)
      ensures participants == old(participants) && settings == old(settings) && chat == old(chat)
      ensures Snapshot() == old(Snapshot())
    {
      CreateBannerActivatesOnlyNew(banners, id, text);
      if Trim(text) != "" {
        SingleActive(WithNewBanner(banners, id, text), |banners|);
      }
      banners := WithNewBanner(banners, id, text);
    }

    method ClickBanner(id: string)
      requires Valid()
      modifies this
      ensures Valid()
      ensures banners == BannerClicked(old(banners), id)
      ensures participants == old(participants) && settings == old(settings) && chat == old(chat)
      ensures Snapshot() == old(Snapshot())
    {
      ClickKeepsAtMostOneActive(banners, id);
      banners := BannerClicked(banners, id);
    }

    method UpdateSetting(u: SettingUpdate)
      modifies this
      ensures settings == WithSetting(old(settings), u)
      ensures participants == old(participants) && banners == old(banners) && chat == old(chat)
      ensures Snapshot() == old(Snapshot())
    {
      settings := WithSetting(settings, u);
    }

    /** `id` stands for the clock reading that names the new destination. */
    method AddDestination(id: string, platform: Platform, rtmpUrl: string, rtmpKey: string)
      modifies this
      ensures settings == old(settings).(destinations := old(settings).destinations + [NewDestination(id, platform, rtmpUrl, rtmpKey)])
      ensures participants == old(participants) && banners == old(banners) && chat == old(chat)
      ensures Snapshot() == old(Snapshot())
    {
      settings := WithSetting(settings, SetDestinations(settings.destinations + [NewDestination(id, platform, rtmpUrl, rtmpKey)]));
    }

    method ToggleDestination(id: string)
      modifies this
      ensures settings == old(settings).(destinations := DestinationToggled(old(settings).destinations, id))
      ensures participants == old(participants) && banners == old(banners) && chat == old(chat)
      ensures Snapshot() == old(Snapshot())
    {
      settings := WithSetting(settings, SetDestinations(DestinationToggled(settings.destinations, id)));
    }

    method RemoveDestination(id: string)
      modifies this
      ensures settings == old(settings).(destinations := WithoutDestination(old(settings).destinations, id))
      ensures participants == old(participants) && banners == old(banners) && chat == old(chat)
      ensures Snapshot() == old(Snapshot())
    {
      settings := WithSetting(settings, SetDestinations(WithoutDestination(settings.destinations, id)));
    }

    /** `id` stands for the clock reading that names the message. */
    method SendMessage(id: string, text: string)
      modifies this
      ensures chat == WithMessage(old(chat), id, text)
      ensures participants == old(participants) && banners == old(banners) && settings == old(settings)
      ensures Snapshot() == old(Snapshot())
    {
      chat := WithMessage(chat, id, text);
    }

    /** Returns the alert text when going live is refused. */
    method ToggleLive() returns (alert: Option<string>)
      modifies this
      ensures Snapshot() == LiveToggled(old(Snapshot()), EnabledDestinations(old(settings).destinations))
      ensures alert.Some? <==> !old(isLive) && EnabledDestinations(old(settings).destinations) == []
      ensures alert.Some? ==> alert.value == NoDestinationAlert
      ensures participants == old(participants) && banners == old(banners)
      ensures settings == old(settings) && chat == old(chat)
    {
      var enabled := EnabledDestinations(settings.destinations);
      if !isLive && |enabled| == 0 {
        showSettings := true;
        return Some(NoDestinationAlert);
      }
      if isLive {
        downloadModalReason := WrapReason;
        showDownloadModal := true;
      }
      var wasLive := isLive;
      isLive := !isLive;
      if !wasLive {
        timer := 0;
      }
      alert := None;
    }

    /** The "Start Recording" / "Halt Recording" button. */
    method ClickRecord()
      modifies this
      ensures Snapshot() == RecordClicked(old(Snapshot()))
      ensures participants == old(participants) && banners == old(banners)
      ensures settings == old(settings) && chat == old(chat)
    {
      if isRecording {
        isRecording := false;
        showDownloadModal := true;
      } else {
        isRecording := true;
      }
    }

    /** One firing of the interval; `maxLiveDuration` is read from the store's settings. */
    method Tick(maxLiveDuration: int)
      requires isLive || isRecording
      modifies this
      ensures Snapshot() == Ticked(old(Snapshot()), maxLiveDuration)
      ensures participants == old(participants) && banners == old(banners)
      ensures settings == old(settings) && chat == old(chat)
    {
      var nextTime := timer + 1;
      if nextTime >= maxLiveDuration {
        isLive := false;
        isRecording := false;
        downloadModalReason := LimitReason(maxLiveDuration);
        showDownloadModal := true;
        timer := 0;
      } else {
        timer := nextTime;
      }
    }

    method CloseDownloadModal()
      modifies this
      ensures Snapshot() == old(Snapshot()).(showDownloadModal := false)
      ensures participants == old(participants) && banners == old(banners)
      ensures settings == old(settings) && chat == old(chat)
    {
      showDownloadModal := false;
    }

    method CloseSettings()
      modifies this
      ensures Snapshot() == old(Snapshot()).(showSettings := false)
      ensures participants == old(participants) && banners == old(banners)
      ensures settings == old(settings) && chat == old(chat)
    {
      showSettings := false;
    }
  }
}
