/** The C++ `Player` (src/mpris/player.cpp): a cached copy of one player's
    org.mpris.MediaPlayer2.Player properties, the commands that are sent
    only when the matching capability flag is set, and the volume setter. */
module CppPlayer {
  import opened Wire
  import opened Text
  import opened Common

  /** The cached properties, bundled as a value. */
  datatype PlayerState = PlayerState(
    playbackStatus: string,
    loopStatus: string,
    volume: real,
    position: int,
    shuffle: bool,
    rate: real,
    minimumRate: real,
    maximumRate: real,
    metadata: Metadata,
    canGoNext: bool,
    canGoPrevious: bool,
    canPlay: bool,
    canPause: bool,
    canSeek: bool,
    canControl: bool)

  /** What `reset_properties` leaves: empty strings, zeros, `false` and a
      default `Metadata`. */
  function ResetState(): PlayerState {
    PlayerState("", "", 0.0, 0, false, 0.0, 0.0, 0.0, DefaultMetadata(), false, false, false, false, false, false)
  }

  /** One scalar property of the Player interface. */
  datatype PlayerField =
    | PlaybackStatus | LoopStatus | Volume | Position | Shuffle | Rate | MinimumRate | MaximumRate
    | CanGoNext | CanGoPrevious | CanPlay | CanPause | CanSeek | CanControl

  /** The property name on the bus, as `init_properties` and `print_properties` spell it. */
  function PlayerFieldName(f: PlayerField): string {
    match f
    case PlaybackStatus => "PlaybackStatus"
    case LoopStatus => "LoopStatus"
    case Volume => "Volume"
    case Position => "Position"
    case Shuffle => "Shuffle"
    case Rate => "Rate"
    case MinimumRate => "MinimumRate"
    case MaximumRate => "MaximumRate"
    case CanGoNext => "CanGoNext"
    case CanGoPrevious => "CanGoPrevious"
    case CanPlay => "CanPlay"
    case CanPause => "CanPause"
    case CanSeek => "CanSeek"
    case CanControl => "CanControl"
  }

  /** All scalar properties in the order `print_properties` lists them. */
  const PlayerFields: seq<PlayerField> := [
    PlaybackStatus, LoopStatus, Volume, Position, Shuffle, Rate, MinimumRate, MaximumRate,
    CanGoNext, CanGoPrevious, CanPlay, CanPause, CanSeek, CanControl]

  /** The name-to-property dispatch shared by `init_properties` and `print_properties`. */
  function PlayerFieldOf(name: string): (r: Option<PlayerField>)
    ensures r.Some? ==> PlayerFieldName(r.value) == name
  {
    if name == "PlaybackStatus" then Some(PlaybackStatus)
    else if name == "LoopStatus" then Some(LoopStatus)
    else if name == "Volume" then Some(Volume)
    else if name == "Position" then Some(Position)
    else if name == "Shuffle" then Some(Shuffle)
    else if name == "Rate" then Some(Rate)
    else if name == "MinimumRate" then Some(MinimumRate)
    else if name == "MaximumRate" then Some(MaximumRate)
    else if name == "CanGoNext" then Some(CanGoNext)
    else if name == "CanGoPrevious" then Some(CanGoPrevious)
    else if name == "CanPlay" then Some(CanPlay)
    else if name == "CanPause" then Some(CanPause)
    else if name == "CanSeek" then Some(CanSeek)
    else if name == "CanControl" then Some(CanControl)
    else None
  }

  /** Every property's name selects that property: the names are distinct
      and none is shadowed by an earlier comparison. */
  lemma PlayerFieldDispatch(f: PlayerField)
    ensures PlayerFieldOf(PlayerFieldName(f)) == Some(f)
  {
  }

  /** The value of one scalar property. */
  datatype Property = TextProperty(s: string) | IntProperty(i: int) | RealProperty(r: real) | BoolProperty(b: bool)

  function Field(p: PlayerState, f: PlayerField): Property {
    match f
    case PlaybackStatus => TextProperty(p.playbackStatus)
    case LoopStatus => TextProperty(p.loopStatus)
    case Volume => RealProperty(p.volume)
    case Position => IntProperty(p.position)
    case Shuffle => BoolProperty(p.shuffle)
    case Rate => RealProperty(p.rate)
    case MinimumRate => RealProperty(p.minimumRate)
    case MaximumRate => RealProperty(p.maximumRate)
    case CanGoNext => BoolProperty(p.canGoNext)
    case CanGoPrevious => BoolProperty(p.canGoPrevious)
    case CanPlay => BoolProperty(p.canPlay)
    case CanPause => BoolProperty(p.canPause)
    case CanSeek => BoolProperty(p.canSeek)
    case CanControl => BoolProperty(p.canControl)
  }

  /** The boolean properties: Shuffle and the capabilities. */
  predicate IsFlag(f: PlayerField) {
    match f
    case Shuffle | CanGoNext | CanGoPrevious | CanPlay | CanPause | CanSeek | CanControl => true
    case _ => false
  }

  /** The wire type `extract` reads correctly into each property (see the
      comment on `Common.ConformsTo`). */
  predicate PlayerFieldConforms(f: PlayerField, v: RemoteValue) {
    match f
    case PlaybackStatus | LoopStatus => v.Str? || v.ObjectPath?
    case Position => v.Int64?
    case Volume | Rate | MinimumRate | MaximumRate => v.Double?
    case Shuffle | CanGoNext | CanGoPrevious | CanPlay | CanPause | CanSeek | CanControl => v.Boolean?
  }

  /** The decoded value of a conforming wire value. */
  function Decode(f: PlayerField, v: RemoteValue): Property
    requires PlayerFieldConforms(f, v)
  {
    match f
    case PlaybackStatus | LoopStatus => TextProperty(ExtractString(v))
    case Position => IntProperty(v.i)
    case Volume | Rate | MinimumRate | MaximumRate => RealProperty(v.r)
    case Shuffle | CanGoNext | CanGoPrevious | CanPlay | CanPause | CanSeek | CanControl => BoolProperty(ExtractBool(v))
  }

  /** A GetAll entry the decoder can read: "Metadata" must carry a
      conforming dictionary, a known property its wire type, and any other
      key is skipped. */
  predicate PlayerEntryOk(key: string, v: RemoteValue) {
    if key == "Metadata" then v.Dict? && MetadataConforms(v.entries)
    else match PlayerFieldOf(key)
      case None => true
      case Some(f) => PlayerFieldConforms(f, v)
  }

  predicate PlayerConforms(entries: Entries) {
    forall i :: 0 <= i < |entries| ==> PlayerEntryOk(entries[i].0, entries[i].1)
  }

  function SetField(p: PlayerState, f: PlayerField, v: RemoteValue): PlayerState
    requires PlayerFieldConforms(f, v)
  {
    match f
    case PlaybackStatus => p.(playbackStatus := ExtractString(v))
    case LoopStatus => p.(loopStatus := ExtractString(v))
    case Volume => p.(volume := v.r)
    case Position => p.(position := v.i)
    case Shuffle => p.(shuffle := ExtractBool(v))
    case Rate => p.(rate := v.r)
    case MinimumRate => p.(minimumRate := v.r)
    case MaximumRate => p.(maximumRate := v.r)
    case CanGoNext => p.(canGoNext := ExtractBool(v))
    case CanGoPrevious => p.(canGoPrevious := ExtractBool(v))
    case CanPlay => p.(canPlay := ExtractBool(v))
    case CanPause => p.(canPause := ExtractBool(v))
    case CanSeek => p.(canSeek := ExtractBool(v))
    case CanControl => p.(canControl := ExtractBool(v))
  }

  /** Writing one property leaves the others and the metadata alone. */
  lemma SetFieldFrame(p: PlayerState, f: PlayerField, v: RemoteValue, g: PlayerField)
    requires PlayerFieldConforms(f, v)
    ensures SetField(p, f, v).metadata == p.metadata
    ensures Field(SetField(p, f, v), g) == if g == f then Decode(f, v) else Field(p, g)
  {
    match f
    case PlaybackStatus =>
    case LoopStatus =>
    case Volume =>
    case Position =>
    case Shuffle =>
    case Rate =>
    case MinimumRate =>
    case MaximumRate =>
    case CanGoNext =>
    case CanGoPrevious =>
    case CanPlay =>
    case CanPause =>
    case CanSeek =>
    case CanControl =>
  }

  /** One GetAll entry: a property overwrites its cache, "Metadata" is
      decoded on top of the cached metadata, and other keys are ignored. */
  function ApplyPlayerEntry(p: PlayerState, key: string, v: RemoteValue): PlayerState
    requires PlayerEntryOk(key, v)
  {
    if key == "Metadata" then p.(metadata := ApplyMetadata(p.metadata, v.entries))
    else match PlayerFieldOf(key)
      case None => p
      case Some(f) => SetField(p, f, v)
  }

  /** The GetAll reply applied entry by entry in wire order. */
  function ApplyPlayer(p: PlayerState, entries: Entries): PlayerState
    requires PlayerConforms(entries)
    decreases |entries|
  {
    if entries == [] then p
    else
      var n := |entries| - 1;
      ApplyPlayerEntry(ApplyPlayer(p, entries[..n]), entries[n].0, entries[n].1)
  }

  /** One entry's effect on a property: its own key overwrites it with the
      decoded value, any other key leaves it alone. */
  lemma PropertyStep(p: PlayerState, key: string, v: RemoteValue, f: PlayerField)
    requires PlayerEntryOk(key, v)
    ensures key == PlayerFieldName(f) ==> PlayerFieldConforms(f, v)
    ensures Field(ApplyPlayerEntry(p, key, v), f) == if key == PlayerFieldName(f) then Decode(f, v) else Field(p, f)
  {
    PlayerFieldDispatch(f);
    if key != "Metadata" && PlayerFieldOf(key).Some? {
      SetFieldFrame(p, PlayerFieldOf(key).value, v, f);
    }
  }

  /** A property absent from the reply keeps its cached value; after a reset
      that is `false` for every capability, so the guarded command stays off. */
  lemma {:induction false} AbsentPropertyKeepsValue(p: PlayerState, entries: Entries, f: PlayerField)
    requires PlayerConforms(entries)
    requires forall i :: 0 <= i < |entries| ==> entries[i].0 != PlayerFieldName(f)
    ensures Field(ApplyPlayer(p, entries), f) == Field(p, f)
    decreases |entries|
  {
    if entries != [] {
      var n := |entries| - 1;
      assert PlayerConforms(entries[..n]);
      AbsentPropertyKeepsValue(p, entries[..n], f);
      PropertyStep(ApplyPlayer(p, entries[..n]), entries[n].0, entries[n].1, f);
    }
  }

  /** The reply's entry for a property decides it when no later entry
      repeats the key. */
  lemma {:induction false} LastPropertyEntryWins(p: PlayerState, before: Entries, v: RemoteValue, after: Entries, f: PlayerField)
    requires PlayerConforms(before) && PlayerConforms(after) && PlayerFieldConforms(f, v)
    requires forall i :: 0 <= i < |after| ==> after[i].0 != PlayerFieldName(f)
    ensures PlayerConforms(before + [(PlayerFieldName(f), v)] + after)
    ensures Field(ApplyPlayer(p, before + [(PlayerFieldName(f), v)] + after), f) == Decode(f, v)
    decreases |after|
  {
    var all := before + [(PlayerFieldName(f), v)] + after;
    PlayerFieldDispatch(f);
    assert PlayerConforms(all) by {
      forall i | 0 <= i < |all|
        ensures PlayerEntryOk(all[i].0, all[i].1)
      {
        if i > |before| { assert all[i] == after[i - |before| - 1]; }
      }
    }
    if after == [] {
      assert all[..|all| - 1] == before;
      PropertyStep(ApplyPlayer(p, before), PlayerFieldName(f), v, f);
    } else {
      var n := |after| - 1;
      assert all[..|all| - 1] == before + [(PlayerFieldName(f), v)] + after[..n];
      assert PlayerConforms(after[..n]);
      LastPropertyEntryWins(p, before, v, after[..n], f);
      assert all[|all| - 1] == after[n];
      PropertyStep(ApplyPlayer(p, all[..|all| - 1]), after[n].0, after[n].1, f);
    }
  }

  /** Only a "Metadata" entry touches the cached metadata: a reply without
      one leaves it as it was. */
  lemma {:induction false} MetadataEntriesOnly(p: PlayerState, entries: Entries)
    requires PlayerConforms(entries)
    requires forall i :: 0 <= i < |entries| ==> entries[i].0 != "Metadata"
    ensures ApplyPlayer(p, entries).metadata == p.metadata
    decreases |entries|
  {
    if entries != [] {
      var n := |entries| - 1;
      assert PlayerConforms(entries[..n]);
      MetadataEntriesOnly(p, entries[..n]);
      var key := entries[n].0;
      if PlayerFieldOf(key).Some? {
        SetFieldFrame(ApplyPlayer(p, entries[..n]), PlayerFieldOf(key).value, entries[n].1, PlaybackStatus);
      }
    }
  }

  /** The volume the setter sends: below 0 becomes 0, above 1 becomes 1. */
  function Clamp01(volume: real): (r: real)
    ensures 0.0 <= r <= 1.0
    ensures 0.0 <= volume <= 1.0 ==> r == volume
    ensures volume < 0.0 ==> r == 0.0
    ensures volume > 1.0 ==> r == 1.0
  {
    if volume < 0.0 then 0.0 else if volume > 1.0 then 1.0 else volume
  }

  /** Clamping twice is clamping once, and clamping is monotone. */
  lemma ClampIdempotentMonotone(a: real, b: real)
    ensures Clamp01(Clamp01(a)) == Clamp01(a)
    ensures a <= b ==> Clamp01(a) <= Clamp01(b)
  {
  }

  /** The Properties.GetAll call `init_properties` issues. */
  function GetAllCall(name: string): Call {
    Call(name, MprisPath, PropertiesInterface, "GetAll", [Str(PlayerInterface)])
  }

  /** A call to a method of the Player interface. */
  function PlayerCall(name: string, member: string, args: seq<RemoteValue>): Call {
    Call(name, MprisPath, PlayerInterface, member, args)
  }

  /** The Properties.Set call `set_volume` issues. */
  function SetVolumeCall(name: string, volume: real): Call {
    Call(name, MprisPath, PropertiesInterface, "Set", [Str(PlayerInterface), Str("Volume"), Double(volume)])
  }

  /** A bool as `std::cout` writes it by default. */
  function BoolText(b: bool): string {
    if b then "1" else "0"
  }

  /** `std::cout << value` for one property. */
  function PropertyTokens(v: Property): seq<Token> {
    match v
    case TextProperty(s) => [Chars(s)]
    case IntProperty(i) => [Chars(IntToString(i))]
    case RealProperty(r) => [Float(r)]
    case BoolProperty(b) => [Chars(BoolText(b))]
  }

  /** The full listing of the first `n` properties, `name: value` each. */
  function PropertyListing(p: PlayerState, n: nat): seq<Token>
    requires n <= |PlayerFields|
  {
    if n == 0 then []
    else
      var f := PlayerFields[n - 1];
      PropertyListing(p, n - 1) + [Chars(PlayerFieldName(f)), Chars(": ")] + PropertyTokens(Field(p, f)) + [Chars("\n")]
  }

  class Player {
    const bus: Bus
    var name: string

    var playbackStatus: string
    var loopStatus: string
    var volume: real
    var position: int
    var shuffle: bool
    var rate: real
    var minimumRate: real
    var maximumRate: real
    var metadata: Metadata
    var canGoNext: bool
    var canGoPrevious: bool
    var canPlay: bool
    var canPause: bool
    var canSeek: bool
    var canControl: bool

    /** The cached properties as one value. */
    function State(): PlayerState
      reads this
    {
      PlayerState(playbackStatus, loopStatus, volume, position, shuffle, rate, minimumRate, maximumRate,
        metadata, canGoNext, canGoPrevious, canPlay, canPause, canSeek, canControl)
    }

    /** The member initialisation of the constructor, before it fetches the
        properties: the connection and the name, every cache at its zero. */
    constructor Empty(bus: Bus, name: string)
      ensures this.bus == bus && this.name == name && State() == ResetState()
    {
      this.bus := bus;
      this.name := name;
      playbackStatus, loopStatus, volume, position, shuffle := "", "", 0.0, 0, false;
      rate, minimumRate, maximumRate := 0.0, 0.0, 0.0;
      metadata := DefaultMetadata();
      canGoNext, canGoPrevious, canPlay, canPause, canSeek, canControl := false, false, false, false, false, false;
    }

    /** `Player(connection, name)`: construction fetches the properties and
        fails with the bus's error message when GetAll fails. */
    static method Create(bus: Bus, name: string, fetch: Reply<Entries>) returns (r: Reply<Player>)
      requires fetch.Ok? ==> PlayerConforms(fetch.value)
      modifies bus
      ensures bus.calls == old(bus.calls) + [GetAllCall(name)]
      ensures fetch.Err? <==> r.Err?
      ensures fetch.Err? ==> r.message == fetch.message
      ensures r.Ok? ==> fresh(r.value) && r.value.bus == bus && r.value.name == name
      ensures r.Ok? ==> r.value.State() == ApplyPlayer(ResetState(), fetch.value)
    {
      var p := new Player.Empty(bus, name);
      var init := p.InitProperties(fetch);
      if init.Err? {
        return Err(init.message);
      }
      return Ok(p);
    }

    /** `init_properties`: one GetAll on the Player interface, then the loop
        over the returned dictionary with its chain of key comparisons. */
    method InitProperties(fetch: Reply<Entries>) returns (r: Reply<()>)
      requires fetch.Ok? ==> PlayerConforms(fetch.value)
      modifies this, bus
      ensures bus.calls == old(bus.calls) + [GetAllCall(name)]
      ensures name == old(name)
      ensures fetch.Err? ==> r == Err(fetch.message) && State() == old(State())
      ensures fetch.Ok? ==> r == Ok(()) && State() == ApplyPlayer(old(State()), fetch.value)
    {
      bus.calls := bus.calls + [GetAllCall(name)];
      if fetch.Err? {
        return Err(fetch.message);
      }
      var entries := fetch.value;
      var i := 0;
      while i < |entries|
        invariant 0 <= i <= |entries|
        invariant PlayerConforms(entries[..i])
        invariant name == old(name)
        invariant bus.calls == old(bus.calls) + [GetAllCall(name)]
        invariant State() == ApplyPlayer(old(State()), entries[..i])
      {
        ApplyEntry(entries[i].0, entries[i].1);
        assert entries[..i + 1][..i] == entries[..i];
        i := i + 1;
      }
      assert entries[..i] == entries;
      return Ok(());
    }

    /** One pass of the loop in `init_properties`: the chain of key
        comparisons, each decoding the value into its cache. */
    method ApplyEntry(key: string, v: RemoteValue)
      requires PlayerEntryOk(key, v)
      modifies this
      ensures name == old(name)
      ensures State() == ApplyPlayerEntry(old(State()), key, v)
    {
      if key == "PlaybackStatus" {
        assert PlayerFieldOf(key) == Some(PlaybackStatus);
        playbackStatus := ExtractString(v);
      } else if key == "LoopStatus" {
        assert PlayerFieldOf(key) == Some(LoopStatus);
        loopStatus := ExtractString(v);
      } else if key == "Volume" {
        assert PlayerFieldOf(key) == Some(Volume);
        volume := v.r;
      } else if key == "Position" {
        assert PlayerFieldOf(key) == Some(Position);
        position := v.i;
      } else {
        ApplyRateEntry(key, v);
      }
    }

    /** The keys `ApplyEntry` compares against. */
    static const FirstKeys: set<string> := {"PlaybackStatus", "LoopStatus", "Volume", "Position"}

    /** The chain continued from "Shuffle" to "MaximumRate". */
    method ApplyRateEntry(key: string, v: RemoteValue)
      requires PlayerEntryOk(key, v) && key !in FirstKeys
      modifies this
      ensures name == old(name)
      ensures State() == ApplyPlayerEntry(old(State()), key, v)
    {
      if key == "Shuffle" {
        assert PlayerFieldOf(key) == Some(Shuffle);
        shuffle := ExtractBool(v);
      } else if key == "Rate" {
        assert PlayerFieldOf(key) == Some(Rate);
        rate := v.r;
      } else if key == "MinimumRate" {
        assert PlayerFieldOf(key) == Some(MinimumRate);
        minimumRate := v.r;
      } else if key == "MaximumRate" {
        assert PlayerFieldOf(key) == Some(MaximumRate);
        maximumRate := v.r;
      } else {
        ApplyCapabilityEntry(key, v);
      }
    }

    /** The keys `ApplyRateEntry` compares against. */
    static const RateKeys: set<string> := {"Shuffle", "Rate", "MinimumRate", "MaximumRate"}

    /** The chain continued from "CanGoNext" to "CanPause". */
    method ApplyCapabilityEntry(key: string, v: RemoteValue)
      requires PlayerEntryOk(key, v) && key !in FirstKeys && key !in RateKeys
      modifies this
      ensures name == old(name)
      ensures State() == ApplyPlayerEntry(old(State()), key, v)
    {
      if key == "CanGoNext" {
        assert PlayerFieldOf(key) == Some(CanGoNext);
        canGoNext := ExtractBool(v);
      } else if key == "CanGoPrevious" {
        assert PlayerFieldOf(key) == Some(CanGoPrevious);
        canGoPrevious := ExtractBool(v);
      } else if key == "CanPlay" {
        assert PlayerFieldOf(key) == Some(CanPlay);
        canPlay := ExtractBool(v);
      } else if key == "CanPause" {
        assert PlayerFieldOf(key) == Some(CanPause);
        canPause := ExtractBool(v);
      } else {
        ApplyLastEntry(key, v);
      }
    }

    /** The keys `ApplyCapabilityEntry` compares against. */
    static const CapabilityKeys: set<string> := {"CanGoNext", "CanGoPrevious", "CanPlay", "CanPause"}

    /** The end of the chain, "Metadata" last. */
    method ApplyLastEntry(key: string, v: RemoteValue)
      requires PlayerEntryOk(key, v) && key !in FirstKeys && key !in RateKeys && key !in CapabilityKeys
      modifies this
      ensures name == old(name)
      ensures State() == ApplyPlayerEntry(old(State()), key, v)
    {
      if key == "CanSeek" {
        assert PlayerFieldOf(key) == Some(CanSeek);
        canSeek := ExtractBool(v);
      } else if key == "CanControl" {
        assert PlayerFieldOf(key) == Some(CanControl);
        canControl := ExtractBool(v);
      } else if key == "Metadata" {
        metadata := ExtractMetadata(v.entries, metadata);
      } else {
        assert PlayerFieldOf(key) == None;
      }
    }

    /** `reset_properties`. */
    method ResetProperties()
      modifies this
      ensures name == old(name)
      ensures State() == ResetState()
    {
      playbackStatus, loopStatus, volume, position, shuffle := "", "", 0.0, 0, false;
      rate, minimumRate, maximumRate := 0.0, 0.0, 0.0;
      canGoNext, canGoPrevious, canPlay, canPause, canSeek, canControl := false, false, false, false, false, false;
      metadata := DefaultMetadata();
    }

    /** `set_name`: the cache is reset and refetched from the new player; if
        the fetch fails the cache stays reset. */
    method SetName(newName: string, fetch: Reply<Entries>) returns (r: Reply<()>)
      requires fetch.Ok? ==> PlayerConforms(fetch.value)
      modifies this, bus
      ensures name == newName
      ensures bus.calls == old(bus.calls) + [GetAllCall(newName)]
      ensures fetch.Err? ==> r == Err(fetch.message) && State() == ResetState()
      ensures fetch.Ok? ==> r == Ok(()) && State() == ApplyPlayer(ResetState(), fetch.value)
    {
      name := newName;
      ResetProperties();
      r := InitProperties(fetch);
    }

    /** `get_name`. */
    method GetName() returns (n: string)
      ensures n == name
    {
      return name;
    }

    /** Sends one Player-interface call when `enabled` holds; the reply of
        the remote is `reply`. When disabled nothing is sent and the command
        succeeds silently. */
    method Command(enabled: bool, member: string, args: seq<RemoteValue>, reply: Reply<()>) returns (r: Reply<()>)
      modifies bus
      ensures !enabled ==> r == Ok(()) && bus.calls == old(bus.calls)
      ensures enabled ==> r == reply && bus.calls == old(bus.calls) + [PlayerCall(name, member, args)]
    {
      if !enabled {
        return Ok(());
      }
      bus.calls := bus.calls + [PlayerCall(name, member, args)];
      return reply;
    }

    /** `next`: sent only when the player reported CanGoNext. */
    method Next(reply: Reply<()>) returns (r: Reply<()>)
      modifies bus
      ensures !canGoNext ==> r == Ok(()) && bus.calls == old(bus.calls)
      ensures canGoNext ==> r == reply && bus.calls == old(bus.calls) + [PlayerCall(name, "Next", [])]
    {
      r := Command(canGoNext, "Next", [], reply);
    }

    /** `previous`: sent only when the player reported CanGoPrevious. */
    method Previous(reply: Reply<()>) returns (r: Reply<()>)
      modifies bus
      ensures !canGoPrevious ==> r == Ok(()) && bus.calls == old(bus.calls)
      ensures canGoPrevious ==> r == reply && bus.calls == old(bus.calls) + [PlayerCall(name, "Previous", [])]
    {
      r := Command(canGoPrevious, "Previous", [], reply);
    }

    /** `pause`: sent only when the player reported CanPause. */
    method Pause(reply: Reply<()>) returns (r: Reply<()>)
      modifies bus
      ensures !canPause ==> r == Ok(()) && bus.calls == old(bus.calls)
      ensures canPause ==> r == reply && bus.calls == old(bus.calls) + [PlayerCall(name, "Pause", [])]
    {
      r := Command(canPause, "Pause", [], reply);
    }

    /** `play`: sent only when the player reported CanPlay. */
    method Play(reply: Reply<()>) returns (r: Reply<()>)
      modifies bus
      ensures !canPlay ==> r == Ok(()) && bus.calls == old(bus.calls)
      ensures canPlay ==> r == reply && bus.calls == old(bus.calls) + [PlayerCall(name, "Play", [])]
    {
      r := Command(canPlay, "Play", [], reply);
    }

    /** `play_pause`: gated on CanPause, as the interface asks. */
    method PlayPause(reply: Reply<()>) returns (r: Reply<()>)
      modifies bus
      ensures !canPause ==> r == Ok(()) && bus.calls == old(bus.calls)
      ensures canPause ==> r == reply && bus.calls == old(bus.calls) + [PlayerCall(name, "PlayPause", [])]
    {
      r := Command(canPause, "PlayPause", [], reply);
    }

    /** `stop`: gated on CanControl. */
    method Stop(reply: Reply<()>) returns (r: Reply<()>)
      modifies bus
      ensures !canControl ==> r == Ok(()) && bus.calls == old(bus.calls)
      ensures canControl ==> r == reply && bus.calls == old(bus.calls) + [PlayerCall(name, "Stop", [])]
    {
      r := Command(canControl, "Stop", [], reply);
    }

    /** `seek`: the signed offset in microseconds, gated on CanSeek. */
    method Seek(offset: int, reply: Reply<()>) returns (r: Reply<()>)
      modifies bus
      ensures !canSeek ==> r == Ok(()) && bus.calls == old(bus.calls)
      ensures canSeek ==> r == reply && bus.calls == old(bus.calls) + [PlayerCall(name, "Seek", [Int64(offset)])]
    {
      r := Command(canSeek, "Seek", [Int64(offset)], reply);
    }

    /** `set_position`: the cached track id and the position, gated on CanSeek. */
    method SetPosition(position: int, reply: Reply<()>) returns (r: Reply<()>)
      modifies bus
      ensures !canSeek ==> r == Ok(()) && bus.calls == old(bus.calls)
      ensures canSeek ==> r == reply
      ensures canSeek ==> bus.calls == old(bus.calls) + [PlayerCall(name, "SetPosition", [ObjectPath(metadata.trackId), Int64(position)])]
    {
      r := Command(canSeek, "SetPosition", [ObjectPath(metadata.trackId), Int64(position)], reply);
    }

    /** `open_uri`: gated on CanControl. */
    method OpenUri(uri: string, reply: Reply<()>) returns (r: Reply<()>)
      modifies bus
      ensures !canControl ==> r == Ok(()) && bus.calls == old(bus.calls)
      ensures canControl ==> r == reply && bus.calls == old(bus.calls) + [PlayerCall(name, "OpenUri", [Str(uri)])]
    {
      r := Command(canControl, "OpenUri", [Str(uri)], reply);
    }

    /** `set_volume`: nothing without CanControl; otherwise the clamped
        volume is written with Properties.Set, and the cache takes it only
        once the remote has accepted it. */
    method SetVolume(requested: real, reply: Reply<()>) returns (r: Reply<()>)
      modifies this, bus
      ensures name == old(name) && metadata == old(metadata)
      ensures !old(canControl) ==> r == Ok(()) && bus.calls == old(bus.calls) && State() == old(State())
      ensures old(canControl) ==> r == reply && bus.calls == old(bus.calls) + [SetVolumeCall(name, Clamp01(requested))]
      ensures old(canControl) && reply.Ok? ==> State() == old(State()).(volume := Clamp01(requested))
      ensures old(canControl) && reply.Err? ==> State() == old(State())
    {
      if !canControl {
        return Ok(());
      }
      var v := Clamp01(requested);
      bus.calls := bus.calls + [SetVolumeCall(name, v)];
      if reply.Err? {
        return reply;
      }
      volume := v;
      return reply;
    }

    /** `get_volume`: the cached volume. */
    method GetVolume() returns (v: real)
      ensures v == volume
    {
      return volume;
    }

    /** `get_metadata`: a copy of the cached metadata. */
    method GetMetadata() returns (m: Metadata)
      ensures m == metadata
    {
      return metadata;
    }

    /** `print_properties`: with a name, the value of that property alone
        and nothing for an unknown name; without one, `name: value` for every
        property in table order. */
    method PrintProperties(field: string) returns (out: seq<Token>)
      ensures field != "" && PlayerFieldOf(field).None? ==> out == []
      ensures field != "" && PlayerFieldOf(field).Some?
        ==> out == PropertyTokens(Field(State(), PlayerFieldOf(field).value)) + [Chars("\n")]
      ensures field == "" ==> out == PropertyListing(State(), |PlayerFields|)
    {
      var s := State();
      if field != "" {
        var f := PlayerFieldOf(field);
        out := if f.Some? then PropertyTokens(Field(s, f.value)) + [Chars("\n")] else [];
        return;
      }
      out := [];
      var i := 0;
      while i < |PlayerFields|
        invariant 0 <= i <= |PlayerFields|
        invariant out == PropertyListing(s, i)
      {
        var f := PlayerFields[i];
        out := out + [Chars(PlayerFieldName(f)), Chars(": ")] + PropertyTokens(Field(s, f)) + [Chars("\n")];
        i := i + 1;
      }
    }
  }

  /** After a reset and a fetch whose reply does not report a capability,
      that capability is off: a player that never announced CanGoNext is
      never sent Next. */
  lemma UnreportedCapabilityIsOff(entries: Entries, f: PlayerField)
    requires PlayerConforms(entries)
    requires IsFlag(f)
    requires forall i :: 0 <= i < |entries| ==> entries[i].0 != PlayerFieldName(f)
    ensures Field(ApplyPlayer(ResetState(), entries), f) == BoolProperty(false)
  {
    assert Field(ResetState(), f) == BoolProperty(false);
    AbsentPropertyKeepsValue(ResetState(), entries, f);
  }
}
