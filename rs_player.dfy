/** The Rust `Player` (mpris/src/player.rs): the two status enums and their
    string forms, the property and metadata key tables that `get_properties`
    and `get_metadata` fill their structs from, and the commands, which are
    sent unconditionally (the Rust side has no capability gate). */
module RsPlayer {
  import opened Wire
  import opened Common
  import CppPlayer
  import opened RsUtil

  // ---------------------------------------------------------------------------
  // PlaybackStatus and LoopStatus.

  datatype PlaybackStatus = Playing | Paused | Stopped

  /** `From<PlaybackStatus> for Value`: the status as a D-Bus string. */
  function PlaybackStatusValue(s: PlaybackStatus): RemoteValue {
    match s
    case Playing => Str("Playing")
    case Paused => Str("Paused")
    case Stopped => Str("Stopped")
  }

  /** `TryFrom<OwnedValue> for PlaybackStatus`: exactly the three strings are
      accepted; any other string and any other wire type is `IncorrectType`. */
  function PlaybackStatusFrom(v: RemoteValue): (r: Converted<PlaybackStatus>)
    ensures r.Converted? <==> v.Str? && (v.s == "Playing" || v.s == "Paused" || v.s == "Stopped")
    ensures r.Converted? ==> PlaybackStatusValue(r.value) == v
    ensures r.Failed? ==> r.z == IncorrectType
  {
    match v
    case Str(s) =>
      if s == "Playing" then Converted(Playing)
      else if s == "Paused" then Converted(Paused)
      else if s == "Stopped" then Converted(Stopped)
      else Failed(IncorrectType)
    case _ => Failed(IncorrectType)
  }

  /** Encoding a status and decoding it again gives the status back. */
  lemma PlaybackStatusRoundTrip(s: PlaybackStatus)
    ensures PlaybackStatusFrom(PlaybackStatusValue(s)) == Converted(s)
  {
  }

  /** `LoopStatus`; `LoopNone` is the Rust variant `LoopStatus::None`. */
  datatype LoopStatus = LoopNone | Track | Playlist

  /** `From<LoopStatus> for Value`. */
  function LoopStatusValue(s: LoopStatus): RemoteValue {
    match s
    case LoopNone => Str("None")
    case Track => Str("Track")
    case Playlist => Str("Playlist")
  }

  /** `TryFrom<OwnedValue> for LoopStatus`: "None", "Track" and "Playlist"
      only; everything else is `IncorrectType`. */
  function LoopStatusFrom(v: RemoteValue): (r: Converted<LoopStatus>)
    ensures r.Converted? <==> v.Str? && (v.s == "None" || v.s == "Track" || v.s == "Playlist")
    ensures r.Converted? ==> LoopStatusValue(r.value) == v
    ensures r.Failed? ==> r.z == IncorrectType
  {
    match v
    case Str(s) =>
      if s == "None" then Converted(LoopNone)
      else if s == "Track" then Converted(Track)
      else if s == "Playlist" then Converted(Playlist)
      else Failed(IncorrectType)
    case _ => Failed(IncorrectType)
  }

  /** Encoding a loop status and decoding it again gives it back. */
  lemma LoopStatusRoundTrip(s: LoopStatus)
    ensures LoopStatusFrom(LoopStatusValue(s)) == Converted(s)
  {
  }

  // ---------------------------------------------------------------------------
  // get_properties.

  /** `PlayerProperties`: each Player-interface property, if the player
      reported it with the expected type. */
  datatype PlayerProperties = PlayerProperties(
    playbackStatus: Option<string>,
    loopStatus: Option<string>,
    shuffle: Option<bool>,
    volume: Option<real>,
    position: Option<int>,
    rate: Option<real>,
    minimumRate: Option<real>,
    maximumRate: Option<real>,
    canControl: Option<bool>,
    canPlay: Option<bool>,
    canPause: Option<bool>,
    canSeek: Option<bool>,
    canGoNext: Option<bool>,
    canGoPrevious: Option<bool>)

  /** The struct literal of `get_properties`: one `extract_value` per field,
      each under its own key. */
  function PlayerPropertiesOf(props: PropertyMap): (p: PlayerProperties)
    ensures forall f :: PropertyOf(p, f).Some? ==> CppPlayer.PlayerFieldName(f) in props
  {
    PlayerProperties(
      ExtractValue(props, "PlaybackStatus", AsString),
      ExtractValue(props, "LoopStatus", AsString),
      ExtractValue(props, "Shuffle", AsBool),
      ExtractValue(props, "Volume", AsF64),
      ExtractValue(props, "Position", AsI64),
      ExtractValue(props, "Rate", AsF64),
      ExtractValue(props, "MinimumRate", AsF64),
      ExtractValue(props, "MaximumRate", AsF64),
      ExtractValue(props, "CanControl", AsBool),
      ExtractValue(props, "CanPlay", AsBool),
      ExtractValue(props, "CanPause", AsBool),
      ExtractValue(props, "CanSeek", AsBool),
      ExtractValue(props, "CanGoNext", AsBool),
      ExtractValue(props, "CanGoPrevious", AsBool))
  }

  /** One field of the struct, in the C++ side's property vocabulary. */
  function PropertyOf(p: PlayerProperties, f: CppPlayer.PlayerField): Option<CppPlayer.Property> {
    match f
    case PlaybackStatus => TextProp(p.playbackStatus)
    case LoopStatus => TextProp(p.loopStatus)
    case Volume => RealProp(p.volume)
    case Position => if p.position.Some? then Some(CppPlayer.IntProperty(p.position.value)) else None
    case Shuffle => FlagProp(p.shuffle)
    case Rate => RealProp(p.rate)
    case MinimumRate => RealProp(p.minimumRate)
    case MaximumRate => RealProp(p.maximumRate)
    case CanGoNext => FlagProp(p.canGoNext)
    case CanGoPrevious => FlagProp(p.canGoPrevious)
    case CanPlay => FlagProp(p.canPlay)
    case CanPause => FlagProp(p.canPause)
    case CanSeek => FlagProp(p.canSeek)
    case CanControl => FlagProp(p.canControl)
  }

  function TextProp(o: Option<string>): Option<CppPlayer.Property> {
    if o.Some? then Some(CppPlayer.TextProperty(o.value)) else None
  }

  function RealProp(o: Option<real>): Option<CppPlayer.Property> {
    if o.Some? then Some(CppPlayer.RealProperty(o.value)) else None
  }

  function FlagProp(o: Option<bool>): Option<CppPlayer.Property> {
    if o.Some? then Some(CppPlayer.BoolProperty(o.value)) else None
  }

  /** The conversion `get_properties` applies to a property, by the Rust
      type of its field. */
  function ConvertProperty(f: CppPlayer.PlayerField, v: RemoteValue): Converted<CppPlayer.Property> {
    match f
    case PlaybackStatus | LoopStatus =>
      if v.Str? then Converted(CppPlayer.TextProperty(v.s)) else Failed(IncorrectType)
    case Position =>
      if v.Int64? then Converted(CppPlayer.IntProperty(v.i)) else Failed(IncorrectType)
    case Volume | Rate | MinimumRate | MaximumRate =>
      if v.Double? then Converted(CppPlayer.RealProperty(v.r)) else Failed(IncorrectType)
    case Shuffle | CanGoNext | CanGoPrevious | CanPlay | CanPause | CanSeek | CanControl =>
      if v.Boolean? then Converted(CppPlayer.BoolProperty(v.raw == DBUS_TRUE)) else Failed(IncorrectType)
  }

  /** Every field is read from its own key, the name the C++ side uses for
      the same property: absent, or present with the wrong type, gives
      `None`; present with the right type gives the converted value. */
  lemma GetPropertiesReadsOwnKey(props: PropertyMap, f: CppPlayer.PlayerField)
    ensures var key := CppPlayer.PlayerFieldName(f);
            PropertyOf(PlayerPropertiesOf(props), f)
            == if key in props && ConvertProperty(f, props[key]).Converted?
               then Some(ConvertProperty(f, props[key]).value) else None
  {
  }

  /** Where the Rust side reads a property, the C++ decoder reads the same
      wire value and gets the same value (the C++ side also reads an object
      path into a string property, which Rust rejects). */
  lemma PropertyAgreesWithCpp(f: CppPlayer.PlayerField, v: RemoteValue)
    requires ConvertProperty(f, v).Converted?
    ensures CppPlayer.PlayerFieldConforms(f, v)
    ensures ConvertProperty(f, v).value == CppPlayer.Decode(f, v)
  {
  }

  // ---------------------------------------------------------------------------
  // get_metadata.

  /** `PlayerMetadata`: every metadata field the library knows, if present
      with the expected type. */
  datatype PlayerMetadata = PlayerMetadata(
    artUrl: Option<string>,
    length: Option<int>,
    trackId: Option<string>,
    album: Option<string>,
    albumArtist: Option<seq<string>>,
    artist: Option<seq<string>>,
    asText: Option<string>,
    audioBpm: Option<int>,
    autoRating: Option<real>,
    comment: Option<seq<string>>,
    composer: Option<seq<string>>,
    contentCreated: Option<string>,
    discNumber: Option<int>,
    firstUsed: Option<string>,
    genre: Option<seq<string>>,
    lastUsed: Option<string>,
    lyricist: Option<seq<string>>,
    title: Option<string>,
    trackNumber: Option<int>,
    url: Option<string>,
    userCount: Option<int>,
    userRating: Option<real>)

  /** The key each field is read from. It is the C++ table's key for every
      field but the use count, which the Rust side reads from
      "xesam:useCount" (the C++ side reads "xesam:userCount"). */
  function RsMetadataKey(f: MetadataField): string {
    if f == UserCount then "xesam:useCount" else MetadataKey(f)
  }

  /** The struct literal of `get_metadata`. The track id is read as an
      object path and turned into its string. */
  function MetadataOf(md: PropertyMap): PlayerMetadata
  {
    PlayerMetadata(
      ExtractValue(md, "mpris:artUrl", AsString),
      ExtractValue(md, "mpris:length", AsI64),
      ExtractValue(md, "mpris:trackid", AsObjectPath),
      ExtractValue(md, "xesam:album", AsString),
      ExtractValue(md, "xesam:albumArtist", AsStrings),
      ExtractValue(md, "xesam:artist", AsStrings),
      ExtractValue(md, "xesam:asText", AsString),
      ExtractValue(md, "xesam:audioBPM", AsI64),
      ExtractValue(md, "xesam:autoRating", AsF64),
      ExtractValue(md, "xesam:comment", AsStrings),
      ExtractValue(md, "xesam:composer", AsStrings),
      ExtractValue(md, "xesam:contentCreated", AsString),
      ExtractValue(md, "xesam:discNumber", AsI64),
      ExtractValue(md, "xesam:firstUsed", AsString),
      ExtractValue(md, "xesam:genre", AsStrings),
      ExtractValue(md, "xesam:lastUsed", AsString),
      ExtractValue(md, "xesam:lyricist", AsStrings),
      ExtractValue(md, "xesam:title", AsString),
      ExtractValue(md, "xesam:trackNumber", AsI64),
      ExtractValue(md, "xesam:url", AsString),
      ExtractValue(md, "xesam:useCount", AsI64),
      ExtractValue(md, "xesam:userRating", AsF64))
  }

  function StringField(o: Option<string>): Option<Value> {
    if o.Some? then Some(StringValue(o.value)) else None
  }

  function IntField(o: Option<int>): Option<Value> {
    if o.Some? then Some(IntValue(o.value)) else None
  }

  function RealField(o: Option<real>): Option<Value> {
    if o.Some? then Some(RealValue(o.value)) else None
  }

  function ListField(o: Option<seq<string>>): Option<Value> {
    if o.Some? then Some(ListValue(o.value)) else None
  }

  /** One field of the struct, in the C++ side's field vocabulary. */
  function MetadataFieldValue(m: PlayerMetadata, f: MetadataField): Option<Value> {
    match f
    case TrackId => StringField(m.trackId)
    case Length => IntField(m.length)
    case ArtUrl => StringField(m.artUrl)
    case Title => StringField(m.title)
    case Album => StringField(m.album)
    case Artist => ListField(m.artist)
    case AlbumArtist => ListField(m.albumArtist)
    case DiscNumber => IntField(m.discNumber)
    case TrackNumber => IntField(m.trackNumber)
    case Url => StringField(m.url)
    case Genre => ListField(m.genre)
    case Composer => ListField(m.composer)
    case Lyricist => ListField(m.lyricist)
    case Comment => ListField(m.comment)
    case AsText => StringField(m.asText)
    case ContentCreated => StringField(m.contentCreated)
    case FirstUsed => StringField(m.firstUsed)
    case LastUsed => StringField(m.lastUsed)
    case UserCount => IntField(m.userCount)
    case AutoRating => RealField(m.autoRating)
    case UserRating => RealField(m.userRating)
    case AudioBpm => IntField(m.audioBpm)
  }

  /** The conversion `get_metadata` applies to a field, by its Rust type:
      `String`, `ObjectPath` for the track id, `i64`, `f64` or `Vec<String>`. */
  function ConvertMetadata(f: MetadataField, v: RemoteValue): Converted<Value> {
    if f == TrackId then
      if v.ObjectPath? then Converted(StringValue(v.path)) else Failed(IncorrectType)
    else
      match KindOf(f)
      case StringKind => if v.Str? then Converted(StringValue(v.s)) else Failed(IncorrectType)
      case Int64Kind | IntKind => if v.Int64? then Converted(IntValue(v.i)) else Failed(IncorrectType)
      case RealKind => if v.Double? then Converted(RealValue(v.r)) else Failed(IncorrectType)
      case ListKind => if v.StrArray? then Converted(ListValue(v.items)) else Failed(IncorrectType)
  }

  /** What `get_metadata` should hold for field `f`: the converted value
      under the field's own key, or `None` when it is absent or mistyped. */
  predicate ReadsOwnKey(md: PropertyMap, m: PlayerMetadata, f: MetadataField) {
    var key := RsMetadataKey(f);
    MetadataFieldValue(m, f)
    == if key in md && ConvertMetadata(f, md[key]).Converted?
       then Some(ConvertMetadata(f, md[key]).value) else None
  }

  lemma StringFieldsReadOwnKey(md: PropertyMap, f: MetadataField)
    requires KindOf(f) == StringKind
    ensures ReadsOwnKey(md, MetadataOf(md), f)
  {
    var m := MetadataOf(md);
    match f
    case TrackId =>
    case ArtUrl =>
    case Title =>
    case Album =>
    case Url =>
    case AsText =>
    case ContentCreated =>
    case FirstUsed =>
    case LastUsed =>
  }

  lemma NumberFieldsReadOwnKey(md: PropertyMap, f: MetadataField)
    requires KindOf(f) == Int64Kind || KindOf(f) == IntKind || KindOf(f) == RealKind
    ensures ReadsOwnKey(md, MetadataOf(md), f)
  {
    var m := MetadataOf(md);
    match f
    case Length =>
    case DiscNumber =>
    case TrackNumber =>
    case UserCount =>
    case AudioBpm =>
    case AutoRating =>
    case UserRating =>
  }

  lemma ListFieldsReadOwnKey(md: PropertyMap, f: MetadataField)
    requires KindOf(f) == ListKind
    ensures ReadsOwnKey(md, MetadataOf(md), f)
  {
    var m := MetadataOf(md);
    match f
    case Artist =>
    case AlbumArtist =>
    case Genre =>
    case Composer =>
    case Lyricist =>
    case Comment =>
  }

  /** Every field is read from its own key: absent or mistyped gives `None`,
      otherwise the converted value. */
  lemma GetMetadataReadsOwnKey(md: PropertyMap, f: MetadataField)
    ensures var key := RsMetadataKey(f);
            MetadataFieldValue(MetadataOf(md), f)
            == if key in md && ConvertMetadata(f, md[key]).Converted?
               then Some(ConvertMetadata(f, md[key]).value) else None
  {
    match KindOf(f)
    case StringKind => StringFieldsReadOwnKey(md, f);
    case Int64Kind | IntKind | RealKind => NumberFieldsReadOwnKey(md, f);
    case ListKind => ListFieldsReadOwnKey(md, f);
  }

  /** The two sides read the use count from different keys, and the C++
      table does not know the Rust key at all, so a player that sends
      "xesam:useCount" has its count seen by the Rust side only. */
  lemma UseCountKeysDiffer()
    ensures RsMetadataKey(UserCount) != MetadataKey(UserCount)
    ensures MetadataFieldOf(RsMetadataKey(UserCount)) == None
    ensures forall f :: f != UserCount ==> RsMetadataKey(f) == MetadataKey(f)
  {
  }

  /** Where the Rust side reads a string, real or list field, the C++
      decoder applied to a fresh `Metadata` reads the same wire value and
      gets the same value. For the 32-bit integer fields the two never
      agree: Rust accepts only INT64 there, C++ only INT32. */
  lemma MetadataAgreesWithCpp(f: MetadataField, v: RemoteValue)
    requires ConvertMetadata(f, v).Converted?
    ensures KindOf(f) == IntKind <==> !ConformsTo(KindOf(f), v)
    ensures KindOf(f) != IntKind ==> Get(Set(DefaultMetadata(), f, v), f) == ConvertMetadata(f, v).value
  {
    if KindOf(f) != IntKind {
      SetFrame(DefaultMetadata(), f, v, f);
      DefaultMetadataIsZero(f);
    }
  }

  /** A track number sent as INT32, as the xesam vocabulary types it, is
      read by the C++ side and missing on the Rust side. */
  lemma Int32TrackNumberMissing(n: int)
    ensures MetadataFieldValue(MetadataOf(map["xesam:trackNumber" := Int32(n)]), TrackNumber) == None
    ensures Get(ApplyMetadata(DefaultMetadata(), [("xesam:trackNumber", Int32(n))]), TrackNumber) == IntValue(n)
  {
    var entries: Entries := [("xesam:trackNumber", Int32(n))];
    assert entries[..0] == [];
    SetFrame(DefaultMetadata(), TrackNumber, Int32(n), TrackNumber);
  }

  // ---------------------------------------------------------------------------
  // The player object.

  /** The Properties.Get call that reads one Player-interface property. */
  function GetPropertyCall(name: string, property: string): Call {
    Call(name, MprisPath, PropertiesInterface, "Get", [Str(PlayerInterface), Str(property)])
  }

  /** The Properties.Set call that writes one Player-interface property. */
  function SetPropertyCall(name: string, property: string, v: RemoteValue): Call {
    Call(name, MprisPath, PropertiesInterface, "Set", [Str(PlayerInterface), Str(property), v])
  }

  /** A remote failure as the library reports it. */
  function Failure<T>(message: string): Result<T> {
    Result.Err(DBus(message))
  }

  /** `Player { connection, name }`. Neither field changes after
      construction, and the object caches nothing: every read goes to the
      bus. What the remote answers is a parameter of each operation. */
  class Player {
    const bus: Bus
    const name: string

    constructor (bus: Bus, name: string)
      ensures this.bus == bus && this.name == name
    {
      this.bus := bus;
      this.name := name;
    }

    /** `get_properties`: one GetAll on the Player interface, then the
        struct literal over the reply; a failed call is a `DBus` error. */
    method GetProperties(fetch: Reply<PropertyMap>) returns (r: Result<PlayerProperties>)
      modifies bus
      ensures bus.calls == old(bus.calls) + [CppPlayer.GetAllCall(name)]
      ensures fetch.Err? ==> r == Failure(fetch.message)
      ensures fetch.Ok? ==> r == Result.Ok(PlayerPropertiesOf(fetch.value))
    {
      bus.calls := bus.calls + [CppPlayer.GetAllCall(name)];
      if fetch.Err? {
        return Failure(fetch.message);
      }
      return Result.Ok(PlayerPropertiesOf(fetch.value));
    }

    /** `get_metadata`: the "Metadata" property through the proxy, then the
        struct literal over the dictionary. */
    method GetMetadata(fetch: Reply<PropertyMap>) returns (r: Result<PlayerMetadata>)
      modifies bus
      ensures bus.calls == old(bus.calls) + [GetPropertyCall(name, "Metadata")]
      ensures fetch.Err? ==> r == Failure(fetch.message)
      ensures fetch.Ok? ==> r == Result.Ok(MetadataOf(fetch.value))
    {
      bus.calls := bus.calls + [GetPropertyCall(name, "Metadata")];
      if fetch.Err? {
        return Failure(fetch.message);
      }
      return Result.Ok(MetadataOf(fetch.value));
    }

    /** One Player-interface method call, sent whatever the player's
        capabilities are. */
    method Command(member: string, args: seq<RemoteValue>, reply: Reply<()>) returns (r: Result<()>)
      modifies bus
      ensures bus.calls == old(bus.calls) + [CppPlayer.PlayerCall(name, member, args)]
      ensures r == if reply.Ok? then Result.Ok(()) else Failure(reply.message)
    {
      bus.calls := bus.calls + [CppPlayer.PlayerCall(name, member, args)];
      if reply.Err? {
        return Failure(reply.message);
      }
      return Result.Ok(());
    }

    /** One property write, sent unconditionally. */
    method SetProperty(property: string, v: RemoteValue, reply: Reply<()>) returns (r: Result<()>)
      modifies bus
      ensures bus.calls == old(bus.calls) + [SetPropertyCall(name, property, v)]
      ensures r == if reply.Ok? then Result.Ok(()) else Failure(reply.message)
    {
      bus.calls := bus.calls + [SetPropertyCall(name, property, v)];
      if reply.Err? {
        return Failure(reply.message);
      }
      return Result.Ok(());
    }

    method Next(reply: Reply<()>) returns (r: Result<()>)
      modifies bus
      ensures bus.calls == old(bus.calls) + [CppPlayer.PlayerCall(name, "Next", [])]
      ensures r == if reply.Ok? then Result.Ok(()) else Failure(reply.message)
    {
      r := Command("Next", [], reply);
    }

    method Previous(reply: Reply<()>) returns (r: Result<()>)
      modifies bus
      ensures bus.calls == old(bus.calls) + [CppPlayer.PlayerCall(name, "Previous", [])]
      ensures r == if reply.Ok? then Result.Ok(()) else Failure(reply.message)
    {
      r := Command("Previous", [], reply);
    }

    method Play(reply: Reply<()>) returns (r: Result<()>)
      modifies bus
      ensures bus.calls == old(bus.calls) + [CppPlayer.PlayerCall(name, "Play", [])]
      ensures r == if reply.Ok? then Result.Ok(()) else Failure(reply.message)
    {
      r := Command("Play", [], reply);
    }

    method Pause(reply: Reply<()>) returns (r: Result<()>)
      modifies bus
      ensures bus.calls == old(bus.calls) + [CppPlayer.PlayerCall(name, "Pause", [])]
      ensures r == if reply.Ok? then Result.Ok(()) else Failure(reply.message)
    {
      r := Command("Pause", [], reply);
    }

    method PlayPause(reply: Reply<()>) returns (r: Result<()>)
      modifies bus
      ensures bus.calls == old(bus.calls) + [CppPlayer.PlayerCall(name, "PlayPause", [])]
      ensures r == if reply.Ok? then Result.Ok(()) else Failure(reply.message)
    {
      r := Command("PlayPause", [], reply);
    }

    method Stop(reply: Reply<()>) returns (r: Result<()>)
      modifies bus
      ensures bus.calls == old(bus.calls) + [CppPlayer.PlayerCall(name, "Stop", [])]
      ensures r == if reply.Ok? then Result.Ok(()) else Failure(reply.message)
    {
      r := Command("Stop", [], reply);
    }

    method Seek(offset: int, reply: Reply<()>) returns (r: Result<()>)
      modifies bus
      ensures bus.calls == old(bus.calls) + [CppPlayer.PlayerCall(name, "Seek", [Int64(offset)])]
      ensures r == if reply.Ok? then Result.Ok(()) else Failure(reply.message)
    {
      r := Command("Seek", [Int64(offset)], reply);
    }

    method OpenUri(uri: string, reply: Reply<()>) returns (r: Result<()>)
      modifies bus
      ensures bus.calls == old(bus.calls) + [CppPlayer.PlayerCall(name, "OpenUri", [Str(uri)])]
      ensures r == if reply.Ok? then Result.Ok(()) else Failure(reply.message)
    {
      r := Command("OpenUri", [Str(uri)], reply);
    }

    /** `set_position`: the metadata is fetched first and its failure is
        returned as is; without a track id nothing more is sent and the
        result is `Ok`; with one, SetPosition carries the track id and the
        position. */
    method SetPosition(position: int, metadata: Reply<PropertyMap>, reply: Reply<()>) returns (r: Result<()>)
      modifies bus
      ensures metadata.Err? ==>
        (r == Failure(metadata.message) && bus.calls == old(bus.calls) + [GetPropertyCall(name, "Metadata")])
      ensures metadata.Ok? && MetadataOf(metadata.value).trackId.None? ==>
        (r == Result.Ok(()) && bus.calls == old(bus.calls) + [GetPropertyCall(name, "Metadata")])
      ensures metadata.Ok? && MetadataOf(metadata.value).trackId.Some? ==>
        (var id := MetadataOf(metadata.value).trackId.value;
         r == (if reply.Ok? then Result.Ok(()) else Failure(reply.message))
         && bus.calls == old(bus.calls) + [GetPropertyCall(name, "Metadata"),
                                           CppPlayer.PlayerCall(name, "SetPosition", [ObjectPath(id), Int64(position)])])
    {
      var m := GetMetadata(metadata);
      if m.Err? {
        return Result.Err(m.error);
      }
      if m.value.trackId.None? {
        return Result.Ok(());
      }
      r := Command("SetPosition", [ObjectPath(m.value.trackId.value), Int64(position)], reply);
    }

    /** `get_volume`: the Volume property, read from the bus. */
    method GetVolume(reply: Reply<real>) returns (r: Result<real>)
      modifies bus
      ensures bus.calls == old(bus.calls) + [GetPropertyCall(name, "Volume")]
      ensures r == if reply.Ok? then Result.Ok(reply.value) else Failure(reply.message)
    {
      bus.calls := bus.calls + [GetPropertyCall(name, "Volume")];
      if reply.Err? {
        return Failure(reply.message);
      }
      return Result.Ok(reply.value);
    }

    /** `set_volume`: the volume is sent as given, neither clamped nor gated. */
    method SetVolume(volume: real, reply: Reply<()>) returns (r: Result<()>)
      modifies bus
      ensures bus.calls == old(bus.calls) + [SetPropertyCall(name, "Volume", Double(volume))]
      ensures r == if reply.Ok? then Result.Ok(()) else Failure(reply.message)
    {
      r := SetProperty("Volume", Double(volume), reply);
    }

    method SetShuffle(enabled: bool, reply: Reply<()>) returns (r: Result<()>)
      modifies bus
      ensures bus.calls == old(bus.calls) + [SetPropertyCall(name, "Shuffle", Boolean(EncodeBool(enabled)))]
      ensures r == if reply.Ok? then Result.Ok(()) else Failure(reply.message)
    {
      r := SetProperty("Shuffle", Boolean(EncodeBool(enabled)), reply);
    }

    method SetRate(rate: real, reply: Reply<()>) returns (r: Result<()>)
      modifies bus
      ensures bus.calls == old(bus.calls) + [SetPropertyCall(name, "Rate", Double(rate))]
      ensures r == if reply.Ok? then Result.Ok(()) else Failure(reply.message)
    {
      r := SetProperty("Rate", Double(rate), reply);
    }

    /** `set_loop_status`: the status goes out in its string form. */
    method SetLoopStatus(status: LoopStatus, reply: Reply<()>) returns (r: Result<()>)
      modifies bus
      ensures bus.calls == old(bus.calls) + [SetPropertyCall(name, "LoopStatus", LoopStatusValue(status))]
      ensures r == if reply.Ok? then Result.Ok(()) else Failure(reply.message)
    {
      r := SetProperty("LoopStatus", LoopStatusValue(status), reply);
    }
  }
}
