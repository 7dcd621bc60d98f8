/** The C++ wire-value decoders, the MPRIS 2.2 "Metadata" table and the
    field printers of include/mpris/common.hpp. */
module Common {
  import opened Wire
  import opened Text

  const MprisPath := "/org/mpris/MediaPlayer2"
  const PropertiesInterface := "org.freedesktop.DBus.Properties"
  const MprisInterface := "org.mpris.MediaPlayer2"
  const PlayerInterface := "org.mpris.MediaPlayer2.Player"
  const TrackListInterface := "org.mpris.MediaPlayer2.TrackList"
  /** The "no track" sentinel of the MPRIS TrackList interface (AddTrack). */
  const NoTrack := "/org/mpris/MediaPlayer2/TrackList/NoTrack"

  /** `struct Metadata`: the typed fields of one track's metadata. */
  datatype Metadata = Metadata(
    trackId: string,
    length: int,
    artUrl: string,
    title: string,
    album: string,
    artist: seq<string>,
    albumArtist: seq<string>,
    discNumber: int,
    trackNumber: int,
    url: string,
    genre: seq<string>,
    composer: seq<string>,
    lyricist: seq<string>,
    comment: seq<string>,
    asText: string,
    contentCreated: string,
    firstUsed: string,
    lastUsed: string,
    userCount: int,
    autoRating: real,
    userRating: real,
    audioBpm: int)

  /** The member initialisers of `struct Metadata`. */
  function DefaultMetadata(): Metadata {
    Metadata("", 0, "", "", "", [], [], 0, 0, "", [], [], [], [], "", "", "", "", 0, 0.0, 0.0, 0)
  }

  /** One member of `Metadata`, in declaration order. */
  datatype MetadataField =
    | TrackId | Length | ArtUrl | Title | Album | Artist | AlbumArtist | DiscNumber | TrackNumber
    | Url | Genre | Composer | Lyricist | Comment | AsText | ContentCreated | FirstUsed | LastUsed
    | UserCount | AutoRating | UserRating | AudioBpm

  /** The C++ type of a field, which decides how `extract` reads it. */
  datatype Kind = StringKind | Int64Kind | IntKind | RealKind | ListKind

  /** The content of one field, whatever its type. */
  datatype Value = StringValue(s: string) | IntValue(i: int) | RealValue(r: real) | ListValue(items: seq<string>)

  function KindOf(f: MetadataField): Kind {
    match f
    case TrackId | ArtUrl | Title | Album | Url | AsText | ContentCreated | FirstUsed | LastUsed => StringKind
    case Length => Int64Kind
    case DiscNumber | TrackNumber | UserCount | AudioBpm => IntKind
    case AutoRating | UserRating => RealKind
    case Artist | AlbumArtist | Genre | Composer | Lyricist | Comment => ListKind
  }

  /** The wire key of each field, as `extract_metadata` and `print_metadata` spell it. */
  function MetadataKey(f: MetadataField): string {
    match f
    case TrackId => "mpris:trackid"
    case Length => "mpris:length"
    case ArtUrl => "mpris:artUrl"
    case Title => "xesam:title"
    case Album => "xesam:album"
    case Artist => "xesam:artist"
    case AlbumArtist => "xesam:albumArtist"
    case DiscNumber => "xesam:discNumber"
    case TrackNumber => "xesam:trackNumber"
    case Url => "xesam:url"
    case Genre => "xesam:genre"
    case Composer => "xesam:composer"
    case Lyricist => "xesam:lyricist"
    case Comment => "xesam:comment"
    case AsText => "xesam:asText"
    case ContentCreated => "xesam:contentCreated"
    case FirstUsed => "xesam:firstUsed"
    case LastUsed => "xesam:lastUsed"
    case UserCount => "xesam:userCount"
    case AutoRating => "xesam:autoRating"
    case UserRating => "xesam:userRating"
    case AudioBpm => "xesam:audioBPM"
  }

  /** All fields in the order `print_metadata` lists them. */
  const MetadataFields: seq<MetadataField> := [
    TrackId, Length, ArtUrl, Title, Album, Artist, AlbumArtist, DiscNumber, TrackNumber,
    Url, Genre, Composer, Lyricist, Comment, AsText, ContentCreated, FirstUsed, LastUsed,
    UserCount, AutoRating, UserRating, AudioBpm]

  /** The key-to-field dispatch: the field a key names, if any. */
  function MetadataFieldOf(key: string): (r: Option<MetadataField>)
    ensures r.Some? ==> MetadataKey(r.value) == key
  {
    if key == "mpris:trackid" then Some(TrackId)
    else if key == "mpris:length" then Some(Length)
    else if key == "mpris:artUrl" then Some(ArtUrl)
    else if key == "xesam:title" then Some(Title)
    else if key == "xesam:album" then Some(Album)
    else if key == "xesam:artist" then Some(Artist)
    else if key == "xesam:albumArtist" then Some(AlbumArtist)
    else if key == "xesam:discNumber" then Some(DiscNumber)
    else if key == "xesam:trackNumber" then Some(TrackNumber)
    else if key == "xesam:url" then Some(Url)
    else if key == "xesam:genre" then Some(Genre)
    else if key == "xesam:composer" then Some(Composer)
    else if key == "xesam:lyricist" then Some(Lyricist)
    else if key == "xesam:comment" then Some(Comment)
    else if key == "xesam:asText" then Some(AsText)
    else if key == "xesam:contentCreated" then Some(ContentCreated)
    else if key == "xesam:firstUsed" then Some(FirstUsed)
    else if key == "xesam:lastUsed" then Some(LastUsed)
    else if key == "xesam:userCount" then Some(UserCount)
    else if key == "xesam:autoRating" then Some(AutoRating)
    else if key == "xesam:userRating" then Some(UserRating)
    else if key == "xesam:audioBPM" then Some(AudioBpm)
    else None
  }

  /** The dispatch and the key table are inverse: every field's key selects
      that field, so no two fields share a key and no key is shadowed by an
      earlier branch. */
  lemma MetadataKeyDispatch(f: MetadataField)
    ensures MetadataFieldOf(MetadataKey(f)) == Some(f)
  {
    match f
    case TrackId | Length | ArtUrl | Title | Album | Artist | AlbumArtist | DiscNumber | TrackNumber | Url | Genre =>
      EarlyKeyDispatch(f);
    case Composer | Lyricist | Comment | AsText | ContentCreated | FirstUsed | LastUsed | UserCount
      | AutoRating | UserRating | AudioBpm =>
      LateKeyDispatch(f);
  }

  /** The first eleven branches of the dispatch. */
  lemma EarlyKeyDispatch(f: MetadataField)
    requires f.TrackId? || f.Length? || f.ArtUrl? || f.Title? || f.Album? || f.Artist? || f.AlbumArtist?
      || f.DiscNumber? || f.TrackNumber? || f.Url? || f.Genre?
    ensures MetadataFieldOf(MetadataKey(f)) == Some(f)
  {
    match f
    case TrackId =>
    case Length =>
    case ArtUrl =>
    case Title =>
    case Album =>
    case Artist =>
    case AlbumArtist =>
    case DiscNumber =>
    case TrackNumber =>
    case Url =>
    case Genre =>
  }

  /** The last eleven branches of the dispatch. */
  lemma LateKeyDispatch(f: MetadataField)
    requires f.Composer? || f.Lyricist? || f.Comment? || f.AsText? || f.ContentCreated? || f.FirstUsed?
      || f.LastUsed? || f.UserCount? || f.AutoRating? || f.UserRating? || f.AudioBpm?
    ensures MetadataFieldOf(MetadataKey(f)) == Some(f)
  {
    match f
    case Composer =>
    case Lyricist =>
    case Comment =>
    case AsText =>
    case ContentCreated =>
    case FirstUsed =>
    case LastUsed =>
    case UserCount =>
    case AutoRating =>
    case UserRating =>
    case AudioBpm =>
  }

  /** Reads one field. */
  function Get(m: Metadata, f: MetadataField): (v: Value)
    ensures KindOf(f) == ListKind <==> v.ListValue?
  {
    match f
    case TrackId => StringValue(m.trackId)
    case Length => IntValue(m.length)
    case ArtUrl => StringValue(m.artUrl)
    case Title => StringValue(m.title)
    case Album => StringValue(m.album)
    case Artist => ListValue(m.artist)
    case AlbumArtist => ListValue(m.albumArtist)
    case DiscNumber => IntValue(m.discNumber)
    case TrackNumber => IntValue(m.trackNumber)
    case Url => StringValue(m.url)
    case Genre => ListValue(m.genre)
    case Composer => ListValue(m.composer)
    case Lyricist => ListValue(m.lyricist)
    case Comment => ListValue(m.comment)
    case AsText => StringValue(m.asText)
    case ContentCreated => StringValue(m.contentCreated)
    case FirstUsed => StringValue(m.firstUsed)
    case LastUsed => StringValue(m.lastUsed)
    case UserCount => IntValue(m.userCount)
    case AutoRating => RealValue(m.autoRating)
    case UserRating => RealValue(m.userRating)
    case AudioBpm => IntValue(m.audioBpm)
  }

  /** The zero of each C++ type: `""`, `0`, `0.0f`, `{}`. */
  function Zero(k: Kind): Value {
    match k
    case StringKind => StringValue("")
    case Int64Kind | IntKind => IntValue(0)
    case RealKind => RealValue(0.0)
    case ListKind => ListValue([])
  }

  /** A default-constructed `Metadata` holds the zero of its type in every field. */
  lemma DefaultMetadataIsZero(f: MetadataField)
    ensures Get(DefaultMetadata(), f) == Zero(KindOf(f))
  {
  }

  /** The index of the first occurrence of `x` in `xs`, `|xs|` when none. */
  function IndexOf<T(==)>(xs: seq<T>, x: T): (i: nat)
    ensures i <= |xs|
    ensures i < |xs| ==> xs[i] == x
    ensures forall j :: 0 <= j < i ==> xs[j] != x
    decreases |xs|
  {
    if xs == [] then 0 else if xs[0] == x then 0 else 1 + IndexOf(xs[1..], x)
  }

  /** `std::find` over a vector of strings: the loop that stops at the first
      element equal to `x`; it reaches the end exactly when `x` is absent. */
  method Find(xs: seq<string>, x: string) returns (i: int)
    ensures i == IndexOf(xs, x)
    ensures i == |xs| <==> x !in xs
  {
    i := 0;
    while i < |xs| && xs[i] != x
      invariant 0 <= i <= |xs|
      invariant forall j :: 0 <= j < i ==> xs[j] != x
    {
      i := i + 1;
    }
    var k := IndexOf(xs, x);
    assert !(k < i) && !(i < k);
  }

  // ---------------------------------------------------------------------------
  // Scalar decoders. `extract<T>` reads the basic value with
  // `dbus_message_iter_get_basic` and does no type check of its own, so a
  // wire value of another type is undefined behaviour in the source; the
  // callers below therefore require that a dictionary's values have the wire
  // type of the field their key names.

  /** The wire types `extract` reads correctly into a field of kind `k`. List
      fields take anything: the list decoder checks the type itself. */
  predicate ConformsTo(k: Kind, v: RemoteValue) {
    match k
    case StringKind => v.Str? || v.ObjectPath?
    case Int64Kind => v.Int64?
    case IntKind => v.Int32?
    case RealKind => v.Double?
    case ListKind => true
  }

  /** `extract(iter, bool&)`: a wire boolean is true exactly when it equals
      `TRUE`; any other 32-bit value reads as false. */
  function ExtractBool(v: RemoteValue): bool
    requires v.Boolean?
  {
    v.raw == DBUS_TRUE
  }

  /** How the C++ side puts a `bool` on the wire (`dbus_bool_t x = b;`). */
  function EncodeBool(b: bool): u32 {
    if b then 1 else 0
  }

  /** Decoding what the C++ side encodes gives the boolean back. */
  lemma BoolRoundTrip(b: bool)
    ensures ExtractBool(Boolean(EncodeBool(b))) == b
  {
  }

  /** `extract(iter, std::string&)`: strings and object paths alike. */
  function ExtractString(v: RemoteValue): string
    requires v.Str? || v.ObjectPath?
  {
    if v.Str? then v.s else v.path
  }

  /** The decoded value a conforming scalar wire value gives a field of kind `k`. */
  function DecodeScalar(k: Kind, v: RemoteValue): Value
    requires k != ListKind && ConformsTo(k, v)
  {
    match k
    case StringKind => StringValue(ExtractString(v))
    case Int64Kind => IntValue(v.i)
    case IntKind => IntValue(v.i)
    case RealKind => RealValue(v.r)
  }

  // ---------------------------------------------------------------------------
  // The string-list decoder.

  /** What `extract(iter, std::vector<std::string>&)` leaves in the list: a
      bare string is appended as one element, an array has all its elements
      appended in wire order, and any other wire type (an object path
      included) leaves the list as it was. */
  function AppendStrings(list: seq<string>, v: RemoteValue): seq<string> {
    match v
    case Str(s) => list + [s]
    case StrArray(items) => list + items
    case _ => list
  }

  /** The list decoder appends: the old contents remain a prefix, and what
      follows them is what the value carries on its own. */
  lemma AppendStringsKeepsPrefix(list: seq<string>, v: RemoteValue)
    ensures list <= AppendStrings(list, v)
    ensures AppendStrings(list, v) == list + AppendStrings([], v)
  {
  }

  /** `extract(iter, std::vector<std::string>&)`, with the `while` loop over
      the array's elements. */
  method ExtractStringList(v: RemoteValue, list: seq<string>) returns (r: seq<string>)
    ensures r == AppendStrings(list, v)
    ensures v.Str? ==> r == list + [v.s]
    ensures v.StrArray? ==> |r| == |list| + |v.items| && r[..|list|] == list
    ensures !v.Str? && !v.StrArray? ==> r == list
  {
    r := list;
    if v.Str? {
      r := r + [v.s];
    } else if v.StrArray? {
      var items := v.items;
      var i := 0;
      while i < |items|
        invariant 0 <= i <= |items|
        invariant r == list + items[..i]
      {
        r := r + [items[i]];
        i := i + 1;
      }
      assert items[..i] == items;
    }
  }

  // ---------------------------------------------------------------------------
  // The metadata dictionary decoder.

  /** A dictionary entry the decoder can read: unknown keys are fine, a known
      key must carry a value of its field's wire type. */
  predicate MetadataEntryOk(key: string, v: RemoteValue) {
    match MetadataFieldOf(key)
    case None => true
    case Some(f) => ConformsTo(KindOf(f), v)
  }

  predicate MetadataConforms(entries: Entries) {
    forall i :: 0 <= i < |entries| ==> MetadataEntryOk(entries[i].0, entries[i].1)
  }

  /** Writes one decoded wire value into field `f`; list fields append. */
  function Set(m: Metadata, f: MetadataField, v: RemoteValue): Metadata
    requires ConformsTo(KindOf(f), v)
  {
    match f
    case TrackId => m.(trackId := ExtractString(v))
    case Length => m.(length := v.i)
    case ArtUrl => m.(artUrl := ExtractString(v))
    case Title => m.(title := ExtractString(v))
    case Album => m.(album := ExtractString(v))
    case Artist => m.(artist := AppendStrings(m.artist, v))
    case AlbumArtist => m.(albumArtist := AppendStrings(m.albumArtist, v))
    case DiscNumber => m.(discNumber := v.i)
    case TrackNumber => m.(trackNumber := v.i)
    case Url => m.(url := ExtractString(v))
    case Genre => m.(genre := AppendStrings(m.genre, v))
    case Composer => m.(composer := AppendStrings(m.composer, v))
    case Lyricist => m.(lyricist := AppendStrings(m.lyricist, v))
    case Comment => m.(comment := AppendStrings(m.comment, v))
    case AsText => m.(asText := ExtractString(v))
    case ContentCreated => m.(contentCreated := ExtractString(v))
    case FirstUsed => m.(firstUsed := ExtractString(v))
    case LastUsed => m.(lastUsed := ExtractString(v))
    case UserCount => m.(userCount := v.i)
    case AutoRating => m.(autoRating := v.r)
    case UserRating => m.(userRating := v.r)
    case AudioBpm => m.(audioBpm := v.i)
  }

  lemma SetTextFieldFrame(m: Metadata, f: MetadataField, v: RemoteValue, g: MetadataField)
    requires f == TrackId || f == ArtUrl || f == Title || f == Album || f == Url
    requires ConformsTo(KindOf(f), v)
    ensures g != f ==> Get(Set(m, f, v), g) == Get(m, g)
    ensures Get(Set(m, f, v), f) == DecodeScalar(KindOf(f), v)
  {
    match f
    case TrackId =>
    case ArtUrl =>
    case Title =>
    case Album =>
    case Url =>
  }

  lemma SetStampFieldFrame(m: Metadata, f: MetadataField, v: RemoteValue, g: MetadataField)
    requires f == AsText || f == ContentCreated || f == FirstUsed || f == LastUsed
    requires ConformsTo(KindOf(f), v)
    ensures g != f ==> Get(Set(m, f, v), g) == Get(m, g)
    ensures Get(Set(m, f, v), f) == DecodeScalar(KindOf(f), v)
  {
    match f
    case AsText =>
    case ContentCreated =>
    case FirstUsed =>
    case LastUsed =>
  }

  lemma SetNumberFieldFrame(m: Metadata, f: MetadataField, v: RemoteValue, g: MetadataField)
    requires KindOf(f) == Int64Kind || KindOf(f) == IntKind || KindOf(f) == RealKind
    requires ConformsTo(KindOf(f), v)
    ensures g != f ==> Get(Set(m, f, v), g) == Get(m, g)
    ensures Get(Set(m, f, v), f) == DecodeScalar(KindOf(f), v)
  {
    match f
    case Length =>
    case DiscNumber =>
    case TrackNumber =>
    case UserCount =>
    case AudioBpm =>
    case AutoRating =>
    case UserRating =>
  }

  lemma SetListFieldFrame(m: Metadata, f: MetadataField, v: RemoteValue, g: MetadataField)
    requires KindOf(f) == ListKind
    requires ConformsTo(KindOf(f), v)
    ensures g != f ==> Get(Set(m, f, v), g) == Get(m, g)
    ensures Get(Set(m, f, v), f) == ListValue(AppendStrings(Get(m, f).items, v))
  {
    match f
    case Artist =>
    case AlbumArtist =>
    case Genre =>
    case Composer =>
    case Lyricist =>
    case Comment =>
  }

  /** Writing a field changes that field alone: a scalar takes the decoded
      value, a list gets the decoded strings appended. */
  lemma SetFrame(m: Metadata, f: MetadataField, v: RemoteValue, g: MetadataField)
    requires ConformsTo(KindOf(f), v)
    ensures g != f ==> Get(Set(m, f, v), g) == Get(m, g)
    ensures g == f && KindOf(f) != ListKind ==> Get(Set(m, f, v), g) == DecodeScalar(KindOf(f), v)
    ensures g == f && KindOf(f) == ListKind ==> Get(Set(m, f, v), g) == ListValue(AppendStrings(Get(m, f).items, v))
  {
    match KindOf(f)
    case StringKind =>
      if f == TrackId || f == ArtUrl || f == Title || f == Album || f == Url {
        SetTextFieldFrame(m, f, v, g);
      } else {
        SetStampFieldFrame(m, f, v, g);
      }
    case Int64Kind | IntKind | RealKind => SetNumberFieldFrame(m, f, v, g);
    case ListKind => SetListFieldFrame(m, f, v, g);
  }

  /** One dictionary entry: a known key updates its field, an unknown key is ignored. */
  function ApplyMetadataEntry(m: Metadata, key: string, v: RemoteValue): Metadata
    requires MetadataEntryOk(key, v)
  {
    match MetadataFieldOf(key)
    case None => m
    case Some(f) => Set(m, f, v)
  }

  /** The dictionary decode: entries applied one after the other in wire order. */
  function ApplyMetadata(m: Metadata, entries: Entries): Metadata
    requires MetadataConforms(entries)
    decreases |entries|
  {
    if entries == [] then m
    else
      var n := |entries| - 1;
      ApplyMetadataEntry(ApplyMetadata(m, entries[..n]), entries[n].0, entries[n].1)
  }

  /** One pass of the loop in `extract_metadata`: the chain of key
      comparisons, each writing the decoded value into its field. */
  method ExtractMetadataEntry(key: string, v: RemoteValue, m: Metadata) returns (r: Metadata)
    requires MetadataEntryOk(key, v)
    ensures r == ApplyMetadataEntry(m, key, v)
  {
    r := m;
    if key == "mpris:trackid" {
      assert MetadataFieldOf(key) == Some(TrackId);
      r := m.(trackId := ExtractString(v));
    } else if key == "mpris:length" {
      assert MetadataFieldOf(key) == Some(Length);
      r := m.(length := v.i);
    } else if key == "mpris:artUrl" {
      assert MetadataFieldOf(key) == Some(ArtUrl);
      r := m.(artUrl := ExtractString(v));
    } else if key == "xesam:title" {
      assert MetadataFieldOf(key) == Some(Title);
      r := m.(title := ExtractString(v));
    } else if key == "xesam:album" {
      assert MetadataFieldOf(key) == Some(Album);
      r := m.(album := ExtractString(v));
    } else if key == "xesam:artist" {
      assert MetadataFieldOf(key) == Some(Artist);
      var l := ExtractStringList(v, m.artist);
      r := m.(artist := l);
    } else if key == "xesam:albumArtist" {
      assert MetadataFieldOf(key) == Some(AlbumArtist);
      var l := ExtractStringList(v, m.albumArtist);
      r := m.(albumArtist := l);
    } else if key == "xesam:discNumber" {
      assert MetadataFieldOf(key) == Some(DiscNumber);
      r := m.(discNumber := v.i);
    } else if key == "xesam:trackNumber" {
      assert MetadataFieldOf(key) == Some(TrackNumber);
      r := m.(trackNumber := v.i);
    } else if key == "xesam:url" {
      assert MetadataFieldOf(key) == Some(Url);
      r := m.(url := ExtractString(v));
    } else {
      r := ExtractLaterMetadataEntry(key, v, m);
    }
  }

  /** The keys the first half of the comparison chain tests. */
  const EarlierKeys := {"mpris:trackid", "mpris:length", "mpris:artUrl", "xesam:title", "xesam:album",
    "xesam:artist", "xesam:albumArtist", "xesam:discNumber", "xesam:trackNumber", "xesam:url"}

  /** The comparison chain in `extract_metadata` after the keys of
      `EarlierKeys`, from "xesam:genre" to "xesam:comment". */
  method ExtractLaterMetadataEntry(key: string, v: RemoteValue, m: Metadata) returns (r: Metadata)
    requires MetadataEntryOk(key, v) && key !in EarlierKeys
    ensures r == ApplyMetadataEntry(m, key, v)
  {
    r := m;
    if key == "xesam:genre" {
      assert MetadataFieldOf(key) == Some(Genre);
      var l := ExtractStringList(v, m.genre);
      r := m.(genre := l);
    } else if key == "xesam:composer" {
      assert MetadataFieldOf(key) == Some(Composer);
      var l := ExtractStringList(v, m.composer);
      r := m.(composer := l);
    } else if key == "xesam:lyricist" {
      assert MetadataFieldOf(key) == Some(Lyricist);
      var l := ExtractStringList(v, m.lyricist);
      r := m.(lyricist := l);
    } else if key == "xesam:comment" {
      assert MetadataFieldOf(key) == Some(Comment);
      var l := ExtractStringList(v, m.comment);
      r := m.(comment := l);
    } else {
      r := ExtractStampMetadataEntry(key, v, m);
    }
  }

  /** The list keys of the comparison chain after `EarlierKeys`. */
  const LaterListKeys := {"xesam:genre", "xesam:composer", "xesam:lyricist", "xesam:comment"}

  /** The comparison chain in `extract_metadata` from "xesam:asText" on. */
  method ExtractStampMetadataEntry(key: string, v: RemoteValue, m: Metadata) returns (r: Metadata)
    requires MetadataEntryOk(key, v) && key !in EarlierKeys && key !in LaterListKeys
    ensures r == ApplyMetadataEntry(m, key, v)
  {
    r := m;
    if key == "xesam:asText" {
      assert MetadataFieldOf(key) == Some(AsText);
      r := m.(asText := ExtractString(v));
    } else if key == "xesam:contentCreated" {
      assert MetadataFieldOf(key) == Some(ContentCreated);
      r := m.(contentCreated := ExtractString(v));
    } else if key == "xesam:firstUsed" {
      assert MetadataFieldOf(key) == Some(FirstUsed);
      r := m.(firstUsed := ExtractString(v));
    } else if key == "xesam:lastUsed" {
      assert MetadataFieldOf(key) == Some(LastUsed);
      r := m.(lastUsed := ExtractString(v));
    } else {
      r := ExtractLastMetadataEntry(key, v, m);
    }
  }

  /** The string keys the comparison chain tests after the list keys. */
  const StampKeys := {"xesam:asText", "xesam:contentCreated", "xesam:firstUsed", "xesam:lastUsed"}

  /** The end of the comparison chain in `extract_metadata`. */
  method ExtractLastMetadataEntry(key: string, v: RemoteValue, m: Metadata) returns (r: Metadata)
    requires MetadataEntryOk(key, v) && key !in EarlierKeys && key !in LaterListKeys && key !in StampKeys
    ensures r == ApplyMetadataEntry(m, key, v)
  {
    r := m;
    if key == "xesam:userCount" {
      assert MetadataFieldOf(key) == Some(UserCount);
      r := m.(userCount := v.i);
    } else if key == "xesam:autoRating" {
      assert MetadataFieldOf(key) == Some(AutoRating);
      r := m.(autoRating := v.r);
    } else if key == "xesam:userRating" {
      assert MetadataFieldOf(key) == Some(UserRating);
      r := m.(userRating := v.r);
    } else if key == "xesam:audioBPM" {
      assert MetadataFieldOf(key) == Some(AudioBpm);
      r := m.(audioBpm := v.i);
    } else {
      assert MetadataFieldOf(key) == None;
    }
  }

  /** `extract_metadata`: the `while` loop over the dictionary, each entry
      written through to the passed `Metadata`. */
  method ExtractMetadata(entries: Entries, m: Metadata) returns (r: Metadata)
    requires MetadataConforms(entries)
    ensures r == ApplyMetadata(m, entries)
  {
    r := m;
    var i := 0;
    while i < |entries|
      invariant 0 <= i <= |entries|
      invariant MetadataConforms(entries[..i])
      invariant r == ApplyMetadata(m, entries[..i])
    {
      r := ExtractMetadataEntry(entries[i].0, entries[i].1, r);
      assert entries[..i + 1][..i] == entries[..i];
      i := i + 1;
    }
    assert entries[..i] == entries;
  }

  /** Decoding a concatenation is decoding the second part on top of the first. */
  lemma {:induction false} ApplyMetadataAppend(m: Metadata, a: Entries, b: Entries)
    requires MetadataConforms(a) && MetadataConforms(b)
    ensures MetadataConforms(a + b)
    ensures ApplyMetadata(m, a + b) == ApplyMetadata(ApplyMetadata(m, a), b)
    decreases |b|
  {
    assert MetadataConforms(a + b) by {
      forall i | 0 <= i < |a + b|
        ensures MetadataEntryOk((a + b)[i].0, (a + b)[i].1)
      {
        if i >= |a| { assert (a + b)[i] == b[i - |a|]; }
      }
    }
    if b != [] {
      var n := |b| - 1;
      assert (a + b)[..|a| + n] == a + b[..n];
      assert MetadataConforms(b[..n]);
      ApplyMetadataAppend(m, a, b[..n]);
    } else {
      assert a + b == a;
    }
  }

  /** Keys outside the table are ignored: a dictionary made only of them
      leaves the metadata as it was. */
  lemma {:induction false} UnknownKeysIgnored(m: Metadata, entries: Entries)
    requires forall i :: 0 <= i < |entries| ==> MetadataFieldOf(entries[i].0).None?
    ensures MetadataConforms(entries)
    ensures ApplyMetadata(m, entries) == m
    decreases |entries|
  {
    if entries != [] {
      UnknownKeysIgnored(m, entries[..|entries| - 1]);
    }
  }

  /** A field whose key does not occur in the dictionary keeps its value; in
      particular a decode that starts from `DefaultMetadata()` leaves it at
      its zero. */
  lemma {:induction false} AbsentKeyKeepsField(m: Metadata, entries: Entries, f: MetadataField)
    requires MetadataConforms(entries)
    requires forall i :: 0 <= i < |entries| ==> entries[i].0 != MetadataKey(f)
    ensures Get(ApplyMetadata(m, entries), f) == Get(m, f)
    decreases |entries|
  {
    if entries != [] {
      var n := |entries| - 1;
      assert MetadataConforms(entries[..n]);
      AbsentKeyKeepsField(m, entries[..n], f);
      var prev := ApplyMetadata(m, entries[..n]);
      var g := MetadataFieldOf(entries[n].0);
      if g.Some? {
        SetFrame(prev, g.value, entries[n].1, f);
      }
    }
  }

  /** Last writer wins for a scalar field: after an entry for its key, later
      entries with other keys do not touch it, so the field holds the value of
      the last entry carrying its key. */
  lemma LastScalarEntryWins(m: Metadata, before: Entries, v: RemoteValue, after: Entries, f: MetadataField)
    requires KindOf(f) != ListKind && ConformsTo(KindOf(f), v)
    requires MetadataConforms(before) && MetadataConforms(after)
    requires forall i :: 0 <= i < |after| ==> after[i].0 != MetadataKey(f)
    ensures MetadataConforms(before + [(MetadataKey(f), v)] + after)
    ensures Get(ApplyMetadata(m, before + [(MetadataKey(f), v)] + after), f) == DecodeScalar(KindOf(f), v)
  {
    var e: Entries := [(MetadataKey(f), v)];
    MetadataKeyDispatch(f);
    assert MetadataConforms(e);
    ApplyMetadataAppend(m, before, e);
    ApplyMetadataAppend(m, before + e, after);
    var mid := ApplyMetadata(m, before + e);
    assert (before + e)[..|before|] == before;
    SetFrame(ApplyMetadata(m, before), f, v, f);
    AbsentKeyKeepsField(mid, after, f);
  }

  /** The strings a dictionary contributes to the list field with key `key`:
      the decoded strings of every entry with that key, in wire order. */
  function Collected(entries: Entries, key: string): seq<string>
    decreases |entries|
  {
    if entries == [] then []
    else
      var n := |entries| - 1;
      Collected(entries[..n], key) + (if entries[n].0 == key then AppendStrings([], entries[n].1) else [])
  }

  /** The strings a list field holds (nothing for a scalar field). */
  function ListItems(m: Metadata, f: MetadataField): (items: seq<string>)
    ensures KindOf(f) == ListKind ==> Get(m, f) == ListValue(items)
  {
    match f
    case Artist => m.artist
    case AlbumArtist => m.albumArtist
    case Genre => m.genre
    case Composer => m.composer
    case Lyricist => m.lyricist
    case Comment => m.comment
    case _ => []
  }

  /** A list field accumulates: after the decode it holds its old contents
      followed by the strings of every entry with its key, in wire order. */
  lemma {:induction false} ListFieldCollects(m: Metadata, entries: Entries, f: MetadataField)
    requires KindOf(f) == ListKind && MetadataConforms(entries)
    ensures ListItems(ApplyMetadata(m, entries), f) == ListItems(m, f) + Collected(entries, MetadataKey(f))
    decreases |entries|
  {
    if entries == [] {
      assert ListItems(m, f) + [] == ListItems(m, f);
    } else {
      var n := |entries| - 1;
      assert MetadataConforms(entries[..n]);
      ListFieldCollects(m, entries[..n], f);
      ListFieldCollectsStep(m, entries, f);
    }
  }

  /** The strings one entry adds to the list with key `key`. */
  function Added(e: (string, RemoteValue), key: string): seq<string> {
    if e.0 == key then AppendStrings([], e.1) else []
  }

  /** The inductive step of `ListFieldCollects`: the last entry appends its
      strings after what the entries before it collected. */
  lemma ListFieldCollectsStep(m: Metadata, entries: Entries, f: MetadataField)
    requires KindOf(f) == ListKind && MetadataConforms(entries) && entries != []
    requires MetadataConforms(entries[..|entries| - 1])
    requires ListItems(ApplyMetadata(m, entries[..|entries| - 1]), f)
             == ListItems(m, f) + Collected(entries[..|entries| - 1], MetadataKey(f))
    ensures ListItems(ApplyMetadata(m, entries), f) == ListItems(m, f) + Collected(entries, MetadataKey(f))
  {
    var n := |entries| - 1;
    ListFieldLast(m, entries, f);
    CollectedLast(entries, MetadataKey(f));
    AppendAssoc(ListItems(m, f), Collected(entries[..n], MetadataKey(f)), Added(entries[n], MetadataKey(f)));
  }

  /** `Collected` read from the last entry backwards. */
  lemma CollectedLast(entries: Entries, key: string)
    requires entries != []
    ensures Collected(entries, key) == Collected(entries[..|entries| - 1], key) + Added(entries[|entries| - 1], key)
  {
  }

  /** Concatenation is associative (stated once, so that the proofs above
      need not rediscover it on long terms). */
  lemma AppendAssoc<T>(a: seq<T>, b: seq<T>, c: seq<T>)
    ensures (a + b) + c == a + (b + c)
  {
  }

  /** The last entry of a dictionary appends its strings to a list field. */
  lemma ListFieldLast(m: Metadata, entries: Entries, f: MetadataField)
    requires KindOf(f) == ListKind && MetadataConforms(entries) && entries != []
    requires MetadataConforms(entries[..|entries| - 1])
    ensures ListItems(ApplyMetadata(m, entries), f)
            == ListItems(ApplyMetadata(m, entries[..|entries| - 1]), f) + Added(entries[|entries| - 1], MetadataKey(f))
  {
    var n := |entries| - 1;
    var prev := ApplyMetadata(m, entries[..n]);
    assert ApplyMetadata(m, entries) == ApplyMetadataEntry(prev, entries[n].0, entries[n].1);
    ListFieldStep(prev, entries[n].0, entries[n].1, f);
  }

  /** One entry's effect on a list field: the strings it carries are
      appended when its key is the field's, and nothing changes otherwise. */
  lemma ListFieldStep(m: Metadata, k: string, v: RemoteValue, f: MetadataField)
    requires KindOf(f) == ListKind && MetadataEntryOk(k, v)
    ensures ListItems(ApplyMetadataEntry(m, k, v), f)
      == ListItems(m, f) + (if k == MetadataKey(f) then AppendStrings([], v) else [])
  {
    MetadataKeyDispatch(f);
    var g := MetadataFieldOf(k);
    if g.Some? {
      SetFrame(m, g.value, v, f);
      if g.value == f {
        AppendStringsKeepsPrefix(ListItems(m, f), v);
      }
    }
  }

  // ---------------------------------------------------------------------------
  // Printing. Output is the sequence of values inserted into `std::cout`;
  // integers and booleans are written out as the stream writes them, a
  // floating-point value stays a number (its stream formatting is not modelled).

  datatype Token = Chars(s: string) | Float(r: real)

  /** `std::cout << value` for one field's value (a list is never passed here). */
  function ScalarTokens(v: Value): seq<Token>
    requires !v.ListValue?
  {
    match v
    case StringValue(s) => [Chars(s)]
    case IntValue(i) => [Chars(IntToString(i))]
    case RealValue(r) => [Float(r)]
  }

  /** The line `print_field(name, vector)` writes: the name and a colon, each
      item after a space, a comma between items. */
  function NamedListLine(name: string, items: seq<string>): string {
    if items == [] then "" else name + ":" + " " + Join(items, ", ") + "\n"
  }

  /** `print_field(name, std::vector<T>)`: nothing for an empty list;
      otherwise the `for` loop writes ` item` for each element and `,` after
      every element but the last. The line is the one the scalar printer
      would write for the list joined with ", ". */
  method PrintNamedList(name: string, items: seq<string>) returns (out: string)
    ensures items == [] ==> out == ""
    ensures items != [] ==> out == name + ": " + Join(items, ", ") + "\n"
    ensures out == NamedListLine(name, items)
  {
    if items == [] {
      return "";
    }
    out := name + ":";
    var i := 0;
    while i < |items|
      invariant 0 <= i <= |items|
      invariant i == 0 ==> out == name + ":"
      invariant 0 < i < |items| ==> out == name + ": " + Join(items[..i], ", ") + ","
      invariant i == |items| ==> out == name + ": " + Join(items, ", ")
    {
      out := out + " " + items[i];
      if i > 0 {
        JoinSnoc(items[..i], items[i], ", ");
        assert items[..i + 1] == items[..i] + [items[i]];
      } else {
        assert items[..1] == [items[0]];
      }
      if i + 1 < |items| {
        out := out + ",";
      } else {
        assert items[..i + 1] == items;
      }
      i := i + 1;
    }
    out := out + "\n";
  }

  /** The lines `print_field(std::vector<T>)` writes: every item followed by a newline. */
  function ItemLines(items: seq<string>): string
    decreases |items|
  {
    if items == [] then "" else ItemLines(items[..|items| - 1]) + items[|items| - 1] + "\n"
  }

  /** `print_field(std::vector<T>)`, the unnamed list printer and its loop. */
  method PrintItems(items: seq<string>) returns (out: string)
    ensures out == ItemLines(items)
    ensures items == [] ==> out == ""
  {
    out := "";
    var i := 0;
    while i < |items|
      invariant 0 <= i <= |items|
      invariant out == ItemLines(items[..i])
    {
      assert items[..i + 1][..i] == items[..i];
      out := out + items[i] + "\n";
      i := i + 1;
    }
    assert items[..i] == items;
  }

  /** What `print_metadata(m, field)` writes for a field given by name. */
  function FieldTokens(v: Value): seq<Token> {
    if v.ListValue? then [Chars(ItemLines(v.items))] else ScalarTokens(v) + [Chars("\n")]
  }

  /** What the full listing writes for one field: `name: value` for a scalar,
      the named list line for a list. */
  function ListingTokens(f: MetadataField, v: Value): seq<Token> {
    if v.ListValue? then [Chars(NamedListLine(MetadataKey(f), v.items))]
    else [Chars(MetadataKey(f)), Chars(": ")] + ScalarTokens(v) + [Chars("\n")]
  }

  /** The full listing of the first `n` fields in table order. */
  function Listing(m: Metadata, n: nat): seq<Token>
    requires n <= |MetadataFields|
  {
    if n == 0 then [] else Listing(m, n - 1) + ListingTokens(MetadataFields[n - 1], Get(m, MetadataFields[n - 1]))
  }

  /** `print_metadata`: with a field name, the value of the field that name
      selects and nothing for a name outside the table; without one, every
      field in table order, each through its printer. */
  method PrintMetadata(m: Metadata, field: string) returns (out: seq<Token>)
    ensures field != "" && MetadataFieldOf(field).None? ==> out == []
    ensures field != "" && MetadataFieldOf(field).Some? ==> out == FieldTokens(Get(m, MetadataFieldOf(field).value))
    ensures field == "" ==> out == Listing(m, |MetadataFields|)
  {
    if field != "" {
      var f := MetadataFieldOf(field);
      if f.Some? {
        var v := Get(m, f.value);
        if v.ListValue? {
          var text := PrintItems(v.items);
          out := [Chars(text)];
        } else {
          out := ScalarTokens(v) + [Chars("\n")];
        }
      } else {
        out := [];
      }
    } else {
      out := PrintListing(m);
    }
  }

  /** The full listing `print_metadata` writes without a field name: every
      field in table order, each through its printer. */
  method PrintListing(m: Metadata) returns (out: seq<Token>)
    ensures out == Listing(m, |MetadataFields|)
  {
    out := [];
    var i := 0;
    while i < |MetadataFields|
      invariant 0 <= i <= |MetadataFields|
      invariant out == Listing(m, i)
    {
      var tokens := PrintListingField(MetadataFields[i], Get(m, MetadataFields[i]));
      out := out + tokens;
      i := i + 1;
    }
  }

  /** One field of the full listing, through the printer for its kind. */
  method PrintListingField(f: MetadataField, v: Value) returns (out: seq<Token>)
    ensures out == ListingTokens(f, v)
  {
    if v.ListValue? {
      var line := PrintNamedList(MetadataKey(f), v.items);
      out := [Chars(line)];
    } else {
      out := [Chars(MetadataKey(f)), Chars(": ")] + ScalarTokens(v) + [Chars("\n")];
    }
  }
}
