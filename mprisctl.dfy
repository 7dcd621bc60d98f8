/** The pure parts of the Rust front end (mprisctl/src/main.rs): the
    volume argument and its parser, the volume step arithmetic, and the
    tables that turn a field name into the text shown for it. */
module RsCtl {
  import opened Wire
  import opened Text
  import opened Common
  import CppPlayer
  import opened RsUtil
  import opened RsPlayer
  import opened RsRoot

  // ---------------------------------------------------------------------------
  // The volume argument.

  /** `VolumeCommand`: an absolute volume, or a step up or down. */
  datatype VolumeCommand = Set(v: real) | Increment(v: real) | Decrement(v: real)

  const InvalidNumber := "Invalid number"
  const OutOfRange := "Value must be 0-1"

  /** `VolumeCommand::from_str`. A trailing `+` or `-` makes the text before
      it a step, which is not range-checked; otherwise the whole text is an
      absolute volume, which must lie in [0, 1]. `parseF64` stands for
      `str::parse::<f64>`. */
  function VolumeFromStr(s: string, parseF64: string -> Option<real>): (r: Reply<VolumeCommand>)
    ensures r.Err? ==> r.message == InvalidNumber || r.message == OutOfRange
    ensures r.Ok? && r.value.Set? ==> 0.0 <= r.value.v <= 1.0 && parseF64(s) == Some(r.value.v)
    ensures r.Ok? && !r.value.Set? ==> s != [] && parseF64(s[..|s| - 1]) == Some(r.value.v)
    ensures r.Ok? && r.value.Increment? ==> s[|s| - 1] == '+'
    ensures r.Ok? && r.value.Decrement? ==> s[|s| - 1] == '-'
  {
    if s != [] && s[|s| - 1] == '+' then
      match parseF64(s[..|s| - 1])
      case None => Reply.Err(InvalidNumber)
      case Some(v) => Reply.Ok(Increment(v))
    else if s != [] && s[|s| - 1] == '-' then
      match parseF64(s[..|s| - 1])
      case None => Reply.Err(InvalidNumber)
      case Some(v) => Reply.Ok(Decrement(v))
    else
      match parseF64(s)
      case None => Reply.Err(InvalidNumber)
      case Some(v) => if !(0.0 <= v <= 1.0) then Reply.Err(OutOfRange) else Reply.Ok(Set(v))
  }

  /** A number followed by `+` or `-` is a step of that size, whatever its
      size; text before the suffix that is not a number is "Invalid number". */
  lemma VolumeSuffixes(t: string, parseF64: string -> Option<real>)
    ensures VolumeFromStr(t + "+", parseF64)
            == if parseF64(t).Some? then Reply.Ok(Increment(parseF64(t).value)) else Reply.Err(InvalidNumber)
    ensures VolumeFromStr(t + "-", parseF64)
            == if parseF64(t).Some? then Reply.Ok(Decrement(parseF64(t).value)) else Reply.Err(InvalidNumber)
  {
    assert (t + "+")[..|t|] == t;
    assert (t + "-")[..|t|] == t;
  }

  /** Without a suffix the text is an absolute volume: accepted exactly when
      it is a number in [0, 1]. */
  lemma VolumeAbsolute(s: string, parseF64: string -> Option<real>)
    requires s == [] || (s[|s| - 1] != '+' && s[|s| - 1] != '-')
    ensures VolumeFromStr(s, parseF64).Ok? <==> parseF64(s).Some? && 0.0 <= parseF64(s).value <= 1.0
    ensures VolumeFromStr(s, parseF64).Ok? ==> VolumeFromStr(s, parseF64) == Reply.Ok(Set(parseF64(s).value))
    ensures parseF64(s).None? ==> VolumeFromStr(s, parseF64) == Reply.Err(InvalidNumber)
  {
  }

  // ---------------------------------------------------------------------------
  // The volume step. `adjust_volume` adds the current volume and the step
  // as whole percentages: each is scaled by 100, rounded, cast to `i64`,
  // and the sum is clamped to [0, 100]. The arguments below are the two
  // rounded percentages, before the cast.

  /** `f64 as i64`: values beyond the range saturate. */
  function SaturateI64(x: int): (r: int)
    ensures Int64Min <= r <= Int64Max
    ensures Int64Min <= x <= Int64Max ==> r == x
    ensures x < Int64Min ==> r == Int64Min
    ensures x > Int64Max ==> r == Int64Max
  {
    if x < Int64Min then Int64Min else if x > Int64Max then Int64Max else x
  }

  /** `i64` addition in a release build: the sum wraps around modulo 2^64
      (a debug build panics instead). */
  function WrapI64(x: int): (r: int)
    ensures Int64Min <= r <= Int64Max
    ensures Int64Min <= x <= Int64Max ==> r == x
  {
    (x - Int64Min) % 0x1_0000_0000_0000_0000 + Int64Min
  }

  /** `i64::clamp(0, 100)`. */
  function ClampPercent(x: int): (r: int)
    ensures 0 <= r <= 100
    ensures 0 <= x <= 100 ==> r == x
  {
    if x < 0 then 0 else if x > 100 then 100 else x
  }

  /** `adjust_volume` as written. */
  function AdjustVolumeAsWritten(c: int, d: int): (v: real)
    ensures 0.0 <= v <= 1.0
  {
    ClampPercent(WrapI64(SaturateI64(c) + SaturateI64(d))) as real / 100.0
  }

  /** `adjust_volume` as intended: the sum of the two percentages, clamped
      to [0, 100], as a volume. */
  function AdjustVolume(c: int, d: int): (r: real)
    ensures 0.0 <= r <= 1.0
    ensures Int64Min <= c <= Int64Max && Int64Min <= d <= Int64Max && 0 <= c + d <= 100 ==> r == (c + d) as real / 100.0
    ensures Int64Min <= c <= Int64Max && Int64Min <= d <= Int64Max && c + d < 0 ==> r == 0.0
    ensures Int64Min <= c <= Int64Max && Int64Min <= d <= Int64Max && c + d > 100 ==> r == 1.0
  {
    ClampPercent(SaturateI64(c) + SaturateI64(d)) as real / 100.0
  }

  /** A larger step never gives a lower volume. */
  lemma AdjustVolumeMonotone(c: int, d1: int, d2: int)
    requires d1 <= d2
    ensures AdjustVolume(c, d1) <= AdjustVolume(c, d2)
  {
  }

  /** The code computes the intended volume whenever the sum of the cast
      percentages fits in an `i64`. */
  lemma AdjustVolumeAgrees(c: int, d: int)
    requires Int64Min <= SaturateI64(c) + SaturateI64(d) <= Int64Max
    ensures AdjustVolumeAsWritten(c, d) == AdjustVolume(c, d)
  {
  }

  /** An increment too large for an `i64` saturates in the cast and then
      overflows in the sum: from 50% the volume drops to 0 where it should
      go to 100%. */
  lemma AdjustVolumeAsWrittenOverflow()
    ensures AdjustVolumeAsWritten(50, Int64Max) == 0.0
    ensures AdjustVolume(50, Int64Max) == 1.0
  {
    assert WrapI64(50 + Int64Max) == Int64Min + 49;
  }

  // ---------------------------------------------------------------------------
  // Showing one field. `to_string` of a string is the string, of an integer
  // its decimal form, of a bool "true" or "false"; lists are joined with
  // ", ". A float is kept as a `Float` token: Rust's float formatting is
  // not part of this model.

  function BoolWord(b: bool): string {
    if b then "true" else "false"
  }

  const ListSeparator := ", "

  function ShowString(o: Option<string>): Option<Token> {
    if o.Some? then Some(Chars(o.value)) else None
  }

  function ShowInt(o: Option<int>): Option<Token> {
    if o.Some? then Some(Chars(IntToString(o.value))) else None
  }

  function ShowReal(o: Option<real>): Option<Token> {
    if o.Some? then Some(Float(o.value)) else None
  }

  function ShowBool(o: Option<bool>): Option<Token> {
    if o.Some? then Some(Chars(BoolWord(o.value))) else None
  }

  function ShowList(o: Option<seq<string>>): Option<Token> {
    if o.Some? then Some(Chars(Join(o.value, ListSeparator))) else None
  }

  /** The text of a metadata value. */
  function ShowValue(v: Value): Token {
    match v
    case StringValue(s) => Chars(s)
    case IntValue(i) => Chars(IntToString(i))
    case RealValue(r) => Float(r)
    case ListValue(items) => Chars(Join(items, ListSeparator))
  }

  /** The text of a player property. */
  function ShowProperty(p: CppPlayer.Property): Token {
    match p
    case TextProperty(s) => Chars(s)
    case IntProperty(i) => Chars(IntToString(i))
    case RealProperty(r) => Float(r)
    case BoolProperty(b) => Chars(BoolWord(b))
  }

  // ---------------------------------------------------------------------------
  // get_metadata_field.

  /** `get_metadata_field`: the field a name selects, shown; `None` for an
      unknown name or an absent field. */
  function GetMetadataField(m: PlayerMetadata, name: string): (r: Option<Token>)
    ensures r.Some? ==> MetadataFieldOf(name).Some?
  {
    match name
    case "mpris:artUrl" => ShowString(m.artUrl)
    case "mpris:length" => ShowInt(m.length)
    case "mpris:trackid" => ShowString(m.trackId)
    case "xesam:album" => ShowString(m.album)
    case "xesam:albumArtist" => ShowList(m.albumArtist)
    case "xesam:artist" => ShowList(m.artist)
    case "xesam:asText" => ShowString(m.asText)
    case "xesam:audioBPM" => ShowInt(m.audioBpm)
    case "xesam:autoRating" => ShowReal(m.autoRating)
    case "xesam:comment" => ShowList(m.comment)
    case "xesam:composer" => ShowList(m.composer)
    case "xesam:contentCreated" => ShowString(m.contentCreated)
    case "xesam:discNumber" => ShowInt(m.discNumber)
    case "xesam:firstUsed" => ShowString(m.firstUsed)
    case "xesam:genre" => ShowList(m.genre)
    case "xesam:lastUsed" => ShowString(m.lastUsed)
    case "xesam:lyricist" => ShowList(m.lyricist)
    case "xesam:title" => ShowString(m.title)
    case "xesam:trackNumber" => ShowInt(m.trackNumber)
    case "xesam:url" => ShowString(m.url)
    case "xesam:userCount" => ShowInt(m.userCount)
    case "xesam:userRating" => ShowReal(m.userRating)
    case _ => None
  }

  function ShowField(o: Option<Value>): Option<Token> {
    if o.Some? then Some(ShowValue(o.value)) else None
  }

  lemma StringFieldsShown(m: PlayerMetadata, f: MetadataField)
    requires KindOf(f) == StringKind
    ensures GetMetadataField(m, MetadataKey(f)) == ShowField(MetadataFieldValue(m, f))
  {
    match f
    case TrackId =>
    case ArtUrl =>
    case Title =>
    case Album =>
    case Url =>
    case AsText =>
    case ContentCreated =>
    case FirstUsed =>
    case LastUsed =>
  }

  lemma NumberFieldsShown(m: PlayerMetadata, f: MetadataField)
    requires KindOf(f) == Int64Kind || KindOf(f) == IntKind
    ensures GetMetadataField(m, MetadataKey(f)) == ShowField(MetadataFieldValue(m, f))
  {
    match f
    case Length | DiscNumber | TrackNumber => EarlyNumberFieldsShown(m, f);
    case UserCount | AudioBpm => LateNumberFieldsShown(m, f);
  }

  lemma EarlyNumberFieldsShown(m: PlayerMetadata, f: MetadataField)
    requires f.Length? || f.DiscNumber? || f.TrackNumber?
    ensures GetMetadataField(m, MetadataKey(f)) == ShowField(MetadataFieldValue(m, f))
  {
    match f
    case Length => assert MetadataKey(f) == "mpris:length";
    case DiscNumber => assert MetadataKey(f) == "xesam:discNumber";
    case TrackNumber => assert MetadataKey(f) == "xesam:trackNumber";
  }

  lemma LateNumberFieldsShown(m: PlayerMetadata, f: MetadataField)
    requires f.UserCount? || f.AudioBpm?
    ensures GetMetadataField(m, MetadataKey(f)) == ShowField(MetadataFieldValue(m, f))
  {
    match f
    case UserCount => assert MetadataKey(f) == "xesam:userCount";
    case AudioBpm => assert MetadataKey(f) == "xesam:audioBPM";
  }

  lemma RealFieldsShown(m: PlayerMetadata, f: MetadataField)
    requires KindOf(f) == RealKind
    ensures GetMetadataField(m, MetadataKey(f)) == ShowField(MetadataFieldValue(m, f))
  {
    match f
    case AutoRating =>
    case UserRating =>
  }

  lemma ListFieldsShown(m: PlayerMetadata, f: MetadataField)
    requires KindOf(f) == ListKind
    ensures GetMetadataField(m, MetadataKey(f)) == ShowField(MetadataFieldValue(m, f))
  {
    match f
    case Artist =>
    case AlbumArtist =>
    case Genre =>
    case Composer =>
    case Lyricist =>
    case Comment =>
  }

  /** The names `get_metadata_field` accepts are exactly the C++ key table,
      and each shows its own field. */
  lemma GetMetadataFieldTable(m: PlayerMetadata, name: string)
    ensures MetadataFieldOf(name).Some? ==> GetMetadataField(m, name) == ShowField(MetadataFieldValue(m, MetadataFieldOf(name).value))
    ensures MetadataFieldOf(name).None? ==> GetMetadataField(m, name) == None
  {
    match MetadataFieldOf(name)
    case None =>
    case Some(f) =>
      match KindOf(f)
      case StringKind => StringFieldsShown(m, f);
      case Int64Kind | IntKind => NumberFieldsShown(m, f);
      case RealKind => RealFieldsShown(m, f);
      case ListKind => ListFieldsShown(m, f);
  }

  /** The display name of the use count is "xesam:userCount", but the value
      behind it is read from "xesam:useCount"; asking for the key the value
      was read from shows nothing. */
  lemma UserCountShownUnderOtherName(md: PropertyMap)
    ensures GetMetadataField(MetadataOf(md), "xesam:userCount")
            == if "xesam:useCount" in md && md["xesam:useCount"].Int64?
               then Some(Chars(IntToString(md["xesam:useCount"].i))) else None
    ensures GetMetadataField(MetadataOf(md), "xesam:useCount") == None
  {
  }

  // ---------------------------------------------------------------------------
  // The full listings of `run`: without a field name, each of the three
  // commands walks a fixed list of names and prints `name: value` for every
  // name whose field shows a value.

  /** The lines a listing prints, each as its name and the value shown. */
  function Listing(names: seq<string>, show: string -> Option<Token>): (lines: seq<(string, Token)>)
    ensures |lines| <= |names|
  {
    if names == [] then []
    else
      var rest := Listing(names[1..], show);
      match show(names[0])
      case Some(v) => [(names[0], v)] + rest
      case None => rest
  }

  /** The listing of consecutive names is the listing of the first ones
      followed by that of the rest: lines come out in the order of the names. */
  lemma {:induction false} ListingAppend(a: seq<string>, b: seq<string>, show: string -> Option<Token>)
    ensures Listing(a + b, show) == Listing(a, show) + Listing(b, show)
  {
    if a != [] {
      assert (a + b)[1..] == a[1..] + b;
      ListingAppend(a[1..], b, show);
    } else {
      assert a + b == b;
    }
  }

  /** A line is printed for a name exactly when the name is walked and its
      field shows a value, and the line carries that value. */
  lemma {:induction false} ListingLines(names: seq<string>, show: string -> Option<Token>, name: string, v: Token)
    ensures (name, v) in Listing(names, show) <==> name in names && show(name) == Some(v)
  {
    if names != [] {
      ListingLines(names[1..], show, name, v);
      assert name in names <==> name == names[0] || name in names[1..];
    }
  }

  /** The fields the full listing walks, in order. */
  const MetadataListingOrder: seq<MetadataField> := [
    ArtUrl, Length, TrackId, Album, AlbumArtist, Artist, AsText, AudioBpm, AutoRating, Comment,
    Composer, ContentCreated, DiscNumber, FirstUsed, Genre, LastUsed, Lyricist, Title, TrackNumber,
    Url, UserCount, UserRating]

  /** The names the full listing walks: the keys of those fields. */
  const MetadataListingNames: seq<string> := [
    "mpris:artUrl", "mpris:length", "mpris:trackid", "xesam:album", "xesam:albumArtist",
    "xesam:artist", "xesam:asText", "xesam:audioBPM", "xesam:autoRating", "xesam:comment",
    "xesam:composer", "xesam:contentCreated", "xesam:discNumber", "xesam:firstUsed",
    "xesam:genre", "xesam:lastUsed", "xesam:lyricist", "xesam:title", "xesam:trackNumber",
    "xesam:url", "xesam:userCount", "xesam:userRating"]

  /** The listing walks every field. */
  lemma MetadataListingCoversFields(f: MetadataField)
    ensures f in MetadataListingOrder
  {
  }

  /** The metadata listing walks exactly the names `get_metadata_field`
      knows. */
  lemma MetadataListingNamesExact(name: string)
    ensures name in MetadataListingNames <==> MetadataFieldOf(name).Some?
  {
    if MetadataFieldOf(name).Some? {
      var f := MetadataFieldOf(name).value;
      MetadataListingCoversFields(f);
      var i :| 0 <= i < |MetadataListingOrder| && MetadataListingOrder[i] == f;
      MetadataListingSpelled(i);
    }
  }

  /** The metadata listing prints a line for every field that shows a
      value, with that value, and for nothing else. */
  lemma MetadataListingShowsEveryField(m: PlayerMetadata, name: string, v: Token)
    ensures (name, v) in Listing(MetadataListingNames, n => GetMetadataField(m, n))
            <==> GetMetadataField(m, name) == Some(v)
  {
    ListingLines(MetadataListingNames, n => GetMetadataField(m, n), name, v);
    MetadataListingNamesExact(name);
  }

  /** Each listed name is the key of its field in the C++ table. */
  lemma MetadataListingSpelled(i: nat)
    requires i < |MetadataListingNames|
    ensures |MetadataListingNames| == |MetadataListingOrder|
    ensures MetadataListingNames[i] == MetadataKey(MetadataListingOrder[i])
  {
  }

  // ---------------------------------------------------------------------------
  // get_root_properties_field.

  /** `get_root_properties_field`. */
  function GetRootPropertiesField(p: RootProperties, name: string): (r: Option<Token>)
    ensures r.Some? ==> IsRootText(name) || IsRootFlag(name) || IsRootList(name)
  {
    match name
    case "Identity" => ShowString(p.identity)
    case "DesktopEntry" => ShowString(p.desktopEntry)
    case "Fullscreen" => ShowBool(p.fullscreen)
    case "HasTrackList" => ShowBool(p.hasTrackList)
    case "SupportedMimeTypes" => ShowList(p.supportedMimeTypes)
    case "SupportedUriSchemes" => ShowList(p.supportedUriSchemes)
    case "CanSetFullscreen" => ShowBool(p.canSetFullscreen)
    case "CanQuit" => ShowBool(p.canQuit)
    case "CanRaise" => ShowBool(p.canRaise)
    case _ => None
  }

  /** What should be shown for a root property given its wire value: a
      string property needs a STRING, a flag a BOOLEAN, a list an array of
      strings; anything else, and any unknown name, shows nothing. */
  function ShownRootValue(name: string, v: RemoteValue): Option<Token> {
    if IsRootText(name) then
      (if v.Str? then Some(Chars(v.s)) else None)
    else if IsRootFlag(name) then
      (if v.Boolean? then Some(Chars(BoolWord(v.raw == DBUS_TRUE))) else None)
    else if IsRootList(name) then
      (if v.StrArray? then Some(Chars(Join(v.items, ListSeparator))) else None)
    else None
  }

  predicate IsRootText(name: string) {
    name == "Identity" || name == "DesktopEntry"
  }

  predicate IsRootFlag(name: string) {
    name == "Fullscreen" || name == "HasTrackList" || name == "CanSetFullscreen" || name == "CanQuit" || name == "CanRaise"
  }

  predicate IsRootList(name: string) {
    name == "SupportedMimeTypes" || name == "SupportedUriSchemes"
  }

  lemma RootTextShown(props: PropertyMap, name: string)
    requires IsRootText(name)
    ensures GetRootPropertiesField(RootPropertiesOf(props), name)
            == if name in props then ShownRootValue(name, props[name]) else None
  {
  }

  lemma RootFlagShown(props: PropertyMap, name: string)
    requires IsRootFlag(name)
    ensures GetRootPropertiesField(RootPropertiesOf(props), name)
            == if name in props then ShownRootValue(name, props[name]) else None
  {
  }

  lemma RootListShown(props: PropertyMap, name: string)
    requires IsRootList(name)
    ensures GetRootPropertiesField(RootPropertiesOf(props), name)
            == if name in props then ShownRootValue(name, props[name]) else None
  {
  }

  /** Asking for a root property by name shows the wire value under that
      very name, converted and rendered; an absent or unknown name shows
      nothing. */
  lemma RootFieldShowsOwnKey(props: PropertyMap, name: string)
    ensures GetRootPropertiesField(RootPropertiesOf(props), name)
            == if name in props then ShownRootValue(name, props[name]) else None
  {
    if IsRootText(name) {
      RootTextShown(props, name);
    } else if IsRootFlag(name) {
      RootFlagShown(props, name);
    } else if IsRootList(name) {
      RootListShown(props, name);
    }
  }

  // ---------------------------------------------------------------------------
  // get_player_properties_field.

  /** `get_player_properties_field`. */
  function GetPlayerPropertiesField(p: PlayerProperties, name: string): (r: Option<Token>)
    ensures r.Some? ==> CppPlayer.PlayerFieldOf(name).Some?
  {
    match name
    case "PlaybackStatus" => ShowString(p.playbackStatus)
    case "LoopStatus" => ShowString(p.loopStatus)
    case "Shuffle" => ShowBool(p.shuffle)
    case "Volume" => ShowReal(p.volume)
    case "Position" => ShowInt(p.position)
    case "Rate" => ShowReal(p.rate)
    case "MinimumRate" => ShowReal(p.minimumRate)
    case "MaximumRate" => ShowReal(p.maximumRate)
    case "CanControl" => ShowBool(p.canControl)
    case "CanPlay" => ShowBool(p.canPlay)
    case "CanPause" => ShowBool(p.canPause)
    case "CanSeek" => ShowBool(p.canSeek)
    case "CanGoNext" => ShowBool(p.canGoNext)
    case "CanGoPrevious" => ShowBool(p.canGoPrevious)
    case _ => None
  }

  /** The names `get_player_properties_field` accepts are exactly the
      property names of the Player interface, each showing its own field. */
  lemma GetPlayerPropertiesFieldTable(p: PlayerProperties, name: string)
    ensures CppPlayer.PlayerFieldOf(name).Some? ==>
      GetPlayerPropertiesField(p, name)
      == (var v := PropertyOf(p, CppPlayer.PlayerFieldOf(name).value); if v.Some? then Some(ShowProperty(v.value)) else None)
    ensures CppPlayer.PlayerFieldOf(name).None? ==> GetPlayerPropertiesField(p, name) == None
  {
  }

  /** End to end: asking for a player property by name shows the wire value
      under that very name, if it has the property's type. */
  lemma PlayerFieldShowsOwnKey(props: PropertyMap, f: CppPlayer.PlayerField)
    ensures var key := CppPlayer.PlayerFieldName(f);
            GetPlayerPropertiesField(PlayerPropertiesOf(props), key)
            == if key in props && ConvertProperty(f, props[key]).Converted?
               then Some(ShowProperty(ConvertProperty(f, props[key]).value)) else None
  {
    CppPlayer.PlayerFieldDispatch(f);
    GetPlayerPropertiesFieldTable(PlayerPropertiesOf(props), CppPlayer.PlayerFieldName(f));
    GetPropertiesReadsOwnKey(props, f);
  }

  /** The names the full player listing walks, in order. */
  const PlayerListingNames: seq<string> := [
    "PlaybackStatus", "LoopStatus", "Shuffle", "Volume", "Position", "Rate", "MinimumRate",
    "MaximumRate", "CanControl", "CanPlay", "CanPause", "CanSeek", "CanGoNext", "CanGoPrevious"]

  /** The player listing names every property. */
  lemma PlayerListingComplete(f: CppPlayer.PlayerField)
    ensures CppPlayer.PlayerFieldName(f) in PlayerListingNames
  {
  }

  /** The player listing walks exactly the names
      `get_player_properties_field` knows. */
  lemma PlayerListingNamesExact(name: string)
    ensures name in PlayerListingNames <==> CppPlayer.PlayerFieldOf(name).Some?
  {
    if CppPlayer.PlayerFieldOf(name).Some? {
      var f := CppPlayer.PlayerFieldOf(name).value;
      PlayerListingComplete(f);
    }
  }

  /** The player listing prints a line for every property that shows a
      value, with that value, and for nothing else. */
  lemma PlayerListingShowsEveryField(p: PlayerProperties, name: string, v: Token)
    ensures (name, v) in Listing(PlayerListingNames, n => GetPlayerPropertiesField(p, n))
            <==> GetPlayerPropertiesField(p, name) == Some(v)
  {
    ListingLines(PlayerListingNames, n => GetPlayerPropertiesField(p, n), name, v);
    PlayerListingNamesExact(name);
  }

  /** The names the full root listing walks, in order. */
  const RootListingNames: seq<string> := [
    "Identity", "DesktopEntry", "Fullscreen", "HasTrackList", "SupportedMimeTypes",
    "SupportedUriSchemes", "CanSetFullscreen", "CanQuit", "CanRaise"]

  /** The root listing walks exactly the names `get_root_properties_field`
      knows. */
  lemma RootListingNamesExact(name: string)
    ensures name in RootListingNames <==> IsRootText(name) || IsRootFlag(name) || IsRootList(name)
  {
  }

  /** The root listing prints a line for every root property that shows a
      value, with that value, and for nothing else; the lines follow the
      order of `RootListingNames`. */
  lemma RootListingShowsEveryField(p: RootProperties, name: string, v: Token)
    ensures (name, v) in Listing(RootListingNames, n => GetRootPropertiesField(p, n))
            <==> GetRootPropertiesField(p, name) == Some(v)
  {
    ListingLines(RootListingNames, n => GetRootPropertiesField(p, n), name, v);
    RootListingNamesExact(name);
  }
}
