/** The C++ `TrackList` (src/mpris/track_list.cpp): a cached copy of one
    player's org.mpris.MediaPlayer2.TrackList properties and the track
    editing commands, each sent only when the player allows editing and
    names a track it knows. */
module CppTrackList {
  import opened Wire
  import opened Common

  /** The cached properties. */
  datatype TrackListState = TrackListState(tracks: seq<string>, canEditTracks: bool)

  /** What `reset_properties` leaves. */
  function ResetTrackList(): TrackListState {
    TrackListState([], false)
  }

  /** A GetAll entry the decoder reads correctly: "CanEditTracks" must be a
      wire boolean; "Tracks" goes through the list decoder, which takes any
      wire type. */
  predicate TrackListEntryOk(key: string, v: RemoteValue) {
    key == "CanEditTracks" ==> v.Boolean?
  }

  predicate TrackListConforms(entries: Entries) {
    forall i :: 0 <= i < |entries| ==> TrackListEntryOk(entries[i].0, entries[i].1)
  }

  /** One GetAll entry: "Tracks" appends the decoded paths to the cache,
      "CanEditTracks" overwrites the flag, anything else is ignored. */
  function ApplyTrackListEntry(s: TrackListState, key: string, v: RemoteValue): TrackListState
    requires TrackListEntryOk(key, v)
  {
    if key == "Tracks" then s.(tracks := AppendStrings(s.tracks, v))
    else if key == "CanEditTracks" then s.(canEditTracks := ExtractBool(v))
    else s
  }

  function ApplyTrackList(s: TrackListState, entries: Entries): TrackListState
    requires TrackListConforms(entries)
    decreases |entries|
  {
    if entries == [] then s
    else
      var n := |entries| - 1;
      ApplyTrackListEntry(ApplyTrackList(s, entries[..n]), entries[n].0, entries[n].1)
  }

  /** The track cache after a fetch is the old cache followed by the paths of
      every "Tracks" entry in wire order; since every fetch follows a reset
      or construction, the cache then holds exactly the reported tracks. */
  lemma {:induction false} TracksCollected(s: TrackListState, entries: Entries)
    requires TrackListConforms(entries)
    ensures ApplyTrackList(s, entries).tracks == s.tracks + Collected(entries, "Tracks")
    decreases |entries|
  {
    if entries != [] {
      var n := |entries| - 1;
      assert TrackListConforms(entries[..n]);
      TracksCollected(s, entries[..n]);
      AppendStringsKeepsPrefix(ApplyTrackList(s, entries[..n]).tracks, entries[n].1);
    }
  }

  /** Without a "CanEditTracks" entry a fetch leaves the flag as it was, so
      after a reset editing stays disabled. */
  lemma {:induction false} EditFlagNeedsReport(s: TrackListState, entries: Entries)
    requires TrackListConforms(entries)
    requires forall i :: 0 <= i < |entries| ==> entries[i].0 != "CanEditTracks"
    ensures ApplyTrackList(s, entries).canEditTracks == s.canEditTracks
    decreases |entries|
  {
    if entries != [] {
      var n := |entries| - 1;
      assert TrackListConforms(entries[..n]);
      EditFlagNeedsReport(s, entries[..n]);
    }
  }

  /** `xs` without its first occurrence of `x` (unchanged when there is none). */
  function RemoveFirst(xs: seq<string>, x: string): seq<string>
    decreases |xs|
  {
    if xs == [] then []
    else if xs[0] == x then xs[1..]
    else [xs[0]] + RemoveFirst(xs[1..], x)
  }

  /** Erasing the element at the first occurrence is `RemoveFirst`. */
  lemma {:induction false} EraseFirstOccurrence(xs: seq<string>, x: string, i: int)
    requires 0 <= i < |xs| && xs[i] == x
    requires forall j :: 0 <= j < i ==> xs[j] != x
    ensures xs[..i] + xs[i + 1..] == RemoveFirst(xs, x)
    decreases i
  {
    if i > 0 {
      EraseFirstOccurrence(xs[1..], x, i - 1);
      assert xs[..i] + xs[i + 1..] == [xs[0]] + (xs[1..][..i - 1] + xs[1..][i..]);
    }
  }

  /** Removing one occurrence takes exactly one copy of `x` out of the
      multiset of tracks and keeps the order of the others. */
  lemma {:induction false} RemoveFirstCount(xs: seq<string>, x: string)
    requires x in xs
    ensures multiset(RemoveFirst(xs, x)) + multiset{x} == multiset(xs)
    ensures |RemoveFirst(xs, x)| == |xs| - 1
    decreases |xs|
  {
    assert xs == [xs[0]] + xs[1..];
    if xs[0] != x {
      RemoveFirstCount(xs[1..], x);
    }
  }

  /** Removing an absent track changes nothing. */
  lemma {:induction false} RemoveFirstAbsent(xs: seq<string>, x: string)
    requires x !in xs
    ensures RemoveFirst(xs, x) == xs
    decreases |xs|
  {
    if xs != [] {
      assert xs[0] != x;
      RemoveFirstAbsent(xs[1..], x);
      assert xs == [xs[0]] + xs[1..];
    }
  }

  /** The ids `get_metadata` asks for: those of `ids` that are in `tracks`,
      in request order and with repetitions kept. */
  function KnownIds(ids: seq<string>, tracks: seq<string>): seq<string>
    decreases |ids|
  {
    if ids == [] then []
    else
      var n := |ids| - 1;
      KnownIds(ids[..n], tracks) + (if ids[n] in tracks then [ids[n]] else [])
  }

  /** An id is requested exactly as often as the caller asked for it when
      it is a known track, and never otherwise. */
  lemma {:induction false} KnownIdsCount(ids: seq<string>, tracks: seq<string>, x: string)
    ensures multiset(KnownIds(ids, tracks))[x] == if x in tracks then multiset(ids)[x] else 0
    decreases |ids|
  {
    if ids != [] {
      var n := |ids| - 1;
      KnownIdsCount(ids[..n], tracks, x);
      assert ids == ids[..n] + [ids[n]];
    }
  }

  /** The filtered ids keep the request order: the result is a subsequence
      of the request, and a request of known tracks passes unchanged. */
  lemma {:induction false} KnownIdsOfKnown(ids: seq<string>, tracks: seq<string>)
    requires forall i :: 0 <= i < |ids| ==> ids[i] in tracks
    ensures KnownIds(ids, tracks) == ids
    decreases |ids|
  {
    if ids != [] {
      var n := |ids| - 1;
      KnownIdsOfKnown(ids[..n], tracks);
      assert ids == ids[..n] + [ids[n]];
    }
  }

  /** The `for` loop of `get_metadata` that builds the request array. */
  method FilterKnown(ids: seq<string>, tracks: seq<string>) returns (kept: seq<string>)
    ensures kept == KnownIds(ids, tracks)
    ensures forall i :: 0 <= i < |kept| ==> kept[i] in tracks && kept[i] in ids
  {
    kept := [];
    var i := 0;
    while i < |ids|
      invariant 0 <= i <= |ids|
      invariant kept == KnownIds(ids[..i], tracks)
      invariant forall j :: 0 <= j < |kept| ==> kept[j] in tracks && kept[j] in ids[..i]
    {
      var at := Find(tracks, ids[i]);
      assert ids[..i + 1][..i] == ids[..i];
      if at < |tracks| {
        kept := kept + [ids[i]];
      }
      i := i + 1;
    }
    assert ids[..i] == ids;
  }

  /** Every reply element decoded into a fresh `Metadata`. */
  function DecodeTracks(replies: seq<Entries>): (r: seq<Metadata>)
    requires forall i :: 0 <= i < |replies| ==> MetadataConforms(replies[i])
    ensures |r| == |replies|
    decreases |replies|
  {
    if replies == [] then []
    else
      var n := |replies| - 1;
      DecodeTracks(replies[..n]) + [ApplyMetadata(DefaultMetadata(), replies[n])]
  }

  /** Element `i` of the result is the decode of reply element `i` alone: no
      field leaks from one track into the next. */
  lemma {:induction false} DecodeTracksPointwise(replies: seq<Entries>, i: int)
    requires forall j :: 0 <= j < |replies| ==> MetadataConforms(replies[j])
    requires 0 <= i < |replies|
    ensures DecodeTracks(replies)[i] == ApplyMetadata(DefaultMetadata(), replies[i])
    decreases |replies|
  {
    var n := |replies| - 1;
    if i < n {
      DecodeTracksPointwise(replies[..n], i);
    }
  }

  /** The reply loop of `get_metadata`. */
  method DecodeAll(replies: seq<Entries>) returns (r: seq<Metadata>)
    requires forall i :: 0 <= i < |replies| ==> MetadataConforms(replies[i])
    ensures r == DecodeTracks(replies)
  {
    r := [];
    var i := 0;
    while i < |replies|
      invariant 0 <= i <= |replies|
      invariant r == DecodeTracks(replies[..i])
    {
      var m := ExtractMetadata(replies[i], DefaultMetadata());
      assert replies[..i + 1][..i] == replies[..i];
      r := r + [m];
      i := i + 1;
    }
    assert replies[..i] == replies;
  }

  /** The Properties.GetAll call `init_properties` issues. */
  function GetAllCall(name: string): Call {
    Call(name, MprisPath, PropertiesInterface, "GetAll", [Str(TrackListInterface)])
  }

  /** A call to a method of the TrackList interface. */
  function TrackListCall(name: string, member: string, args: seq<RemoteValue>): Call {
    Call(name, MprisPath, TrackListInterface, member, args)
  }

  /** The full listing: the named track list, then the flag. */
  function TrackListListing(s: TrackListState): seq<Token> {
    [Chars(NamedListLine("Tracks", s.tracks)), Chars("CanEditTracks"), Chars(": "),
     Chars(if s.canEditTracks then "1" else "0"), Chars("\n")]
  }

  class TrackList {
    const bus: Bus
    var name: string
    var tracks: seq<string>
    var canEditTracks: bool

    function State(): TrackListState
      reads this
    {
      TrackListState(tracks, canEditTracks)
    }

    /** The member initialisation of the constructor: an empty track vector
        and editing off until the fetch reports otherwise. */
    constructor Empty(bus: Bus, name: string)
      ensures this.bus == bus && this.name == name && State() == ResetTrackList()
    {
      this.bus := bus;
      this.name := name;
      tracks := [];
      canEditTracks := false;
    }

    /** `TrackList(connection, name)`: construction fetches the properties
        and fails with the bus's error message when GetAll fails. */
    static method Create(bus: Bus, name: string, fetch: Reply<Entries>) returns (r: Reply<TrackList>)
      requires fetch.Ok? ==> TrackListConforms(fetch.value)
      modifies bus
      ensures bus.calls == old(bus.calls) + [GetAllCall(name)]
      ensures fetch.Err? <==> r.Err?
      ensures fetch.Err? ==> r.message == fetch.message
      ensures r.Ok? ==> fresh(r.value) && r.value.bus == bus && r.value.name == name
      ensures r.Ok? ==> r.value.State() == ApplyTrackList(ResetTrackList(), fetch.value)
    {
      var t := new TrackList.Empty(bus, name);
      var init := t.InitProperties(fetch);
      if init.Err? {
        return Err(init.message);
      }
      return Ok(t);
    }

    /** `init_properties`: one GetAll on the TrackList interface and the loop
        over its dictionary. */
    method InitProperties(fetch: Reply<Entries>) returns (r: Reply<()>)
      requires fetch.Ok? ==> TrackListConforms(fetch.value)
      modifies this, bus
      ensures bus.calls == old(bus.calls) + [GetAllCall(name)]
      ensures name == old(name)
      ensures fetch.Err? ==> r == Err(fetch.message) && State() == old(State())
      ensures fetch.Ok? ==> r == Ok(()) && State() == ApplyTrackList(old(State()), fetch.value)
    {
      bus.calls := bus.calls + [GetAllCall(name)];
      if fetch.Err? {
        return Err(fetch.message);
      }
      var entries := fetch.value;
      var i := 0;
      while i < |entries|
        invariant 0 <= i <= |entries|
        invariant TrackListConforms(entries[..i])
        invariant name == old(name)
        invariant bus.calls == old(bus.calls) + [GetAllCall(name)]
        invariant State() == ApplyTrackList(old(State()), entries[..i])
      {
        var (key, v) := entries[i];
        if key == "Tracks" {
          tracks := ExtractStringList(v, tracks);
        } else if key == "CanEditTracks" {
          canEditTracks := ExtractBool(v);
        }
        assert entries[..i + 1][..i] == entries[..i];
        i := i + 1;
      }
      assert entries[..i] == entries;
      return Ok(());
    }

    /** `reset_properties`. */
    method ResetProperties()
      modifies this
      ensures name == old(name) && State() == ResetTrackList()
    {
      tracks := [];
      canEditTracks := false;
    }

    /** `set_name`: reset, then refetch from the new player. */
    method SetName(newName: string, fetch: Reply<Entries>) returns (r: Reply<()>)
      requires fetch.Ok? ==> TrackListConforms(fetch.value)
      modifies this, bus
      ensures name == newName
      ensures bus.calls == old(bus.calls) + [GetAllCall(newName)]
      ensures fetch.Err? ==> r == Err(fetch.message) && State() == ResetTrackList()
      ensures fetch.Ok? ==> r == Ok(()) && State() == ApplyTrackList(ResetTrackList(), fetch.value)
    {
      name := newName;
      ResetProperties();
      r := InitProperties(fetch);
    }

    /** `add_track`: refused without CanEditTracks or when `afterTrack` is
        neither a known track nor the NoTrack sentinel. Otherwise AddTrack is
        sent; if the player rejects it the cache is left alone, and if it
        accepts it the cache is reset and refetched. */
    method AddTrack(uri: string, afterTrack: string, setAsCurrent: bool, reply: Reply<()>, fetch: Reply<Entries>)
      returns (r: Reply<()>)
      requires fetch.Ok? ==> TrackListConforms(fetch.value)
      modifies this, bus
      ensures name == old(name)
      ensures !old(canEditTracks) || (afterTrack !in old(tracks) && afterTrack != NoTrack) ==>
        r == Ok(()) && bus.calls == old(bus.calls) && State() == old(State())
      ensures old(canEditTracks) && (afterTrack in old(tracks) || afterTrack == NoTrack) && reply.Err? ==>
        r == reply && State() == old(State())
        && bus.calls == old(bus.calls) + [TrackListCall(name, "AddTrack", [Str(uri), ObjectPath(afterTrack), Boolean(EncodeBool(setAsCurrent))])]
      ensures old(canEditTracks) && (afterTrack in old(tracks) || afterTrack == NoTrack) && reply.Ok? ==>
        bus.calls == old(bus.calls) + [TrackListCall(name, "AddTrack", [Str(uri), ObjectPath(afterTrack), Boolean(EncodeBool(setAsCurrent))]), GetAllCall(name)]
        && (fetch.Err? ==> r == Err(fetch.message) && State() == ResetTrackList())
        && (fetch.Ok? ==> r == Ok(()) && State() == ApplyTrackList(ResetTrackList(), fetch.value))
    {
      var at := Find(tracks, afterTrack);
      if !canEditTracks || (at == |tracks| && afterTrack != NoTrack) {
        return Ok(());
      }
      bus.calls := bus.calls + [TrackListCall(name, "AddTrack", [Str(uri), ObjectPath(afterTrack), Boolean(EncodeBool(setAsCurrent))])];
      if reply.Err? {
        return reply;
      }
      ResetProperties();
      r := InitProperties(fetch);
    }

    /** `remove_track`: refused without CanEditTracks or for an unknown id;
        once the player accepts RemoveTrack, the first occurrence of the id
        is erased from the cache. */
    method RemoveTrack(trackId: string, reply: Reply<()>) returns (r: Reply<()>)
      modifies this, bus
      ensures name == old(name) && canEditTracks == old(canEditTracks)
      ensures !old(canEditTracks) || trackId !in old(tracks) ==>
        r == Ok(()) && bus.calls == old(bus.calls) && tracks == old(tracks)
      ensures old(canEditTracks) && trackId in old(tracks) ==>
        r == reply && bus.calls == old(bus.calls) + [TrackListCall(name, "RemoveTrack", [ObjectPath(trackId)])]
      ensures old(canEditTracks) && trackId in old(tracks) && reply.Err? ==> tracks == old(tracks)
      ensures old(canEditTracks) && trackId in old(tracks) && reply.Ok? ==> tracks == RemoveFirst(old(tracks), trackId)
    {
      var at := Find(tracks, trackId);
      if !canEditTracks || at == |tracks| {
        return Ok(());
      }
      bus.calls := bus.calls + [TrackListCall(name, "RemoveTrack", [ObjectPath(trackId)])];
      if reply.Err? {
        return reply;
      }
      EraseFirstOccurrence(tracks, trackId, at);
      tracks := tracks[..at] + tracks[at + 1..];
      return reply;
    }

    /** `go_to`: refused without CanEditTracks or for an unknown id. */
    method GoTo(trackId: string, reply: Reply<()>) returns (r: Reply<()>)
      modifies bus
      ensures !canEditTracks || trackId !in tracks ==> r == Ok(()) && bus.calls == old(bus.calls)
      ensures canEditTracks && trackId in tracks ==>
        r == reply && bus.calls == old(bus.calls) + [TrackListCall(name, "GoTo", [ObjectPath(trackId)])]
    {
      var at := Find(tracks, trackId);
      if !canEditTracks || at == |tracks| {
        return Ok(());
      }
      bus.calls := bus.calls + [TrackListCall(name, "GoTo", [ObjectPath(trackId)])];
      return reply;
    }

    /** `get_metadata`: GetTracksMetadata for the requested ids that are
        known tracks, then one `Metadata` per element of the reply. */
    method GetMetadata(ids: seq<string>, reply: Reply<seq<Entries>>) returns (r: Reply<seq<Metadata>>)
      requires reply.Ok? ==> forall i :: 0 <= i < |reply.value| ==> MetadataConforms(reply.value[i])
      modifies bus
      ensures bus.calls == old(bus.calls) + [TrackListCall(name, "GetTracksMetadata", [StrArray(KnownIds(ids, tracks))])]
      ensures reply.Err? ==> r == Err(reply.message)
      ensures reply.Ok? ==> r == Ok(DecodeTracks(reply.value))
    {
      var kept := FilterKnown(ids, tracks);
      bus.calls := bus.calls + [TrackListCall(name, "GetTracksMetadata", [StrArray(kept)])];
      if reply.Err? {
        return Err(reply.message);
      }
      var decoded := DecodeAll(reply.value);
      return Ok(decoded);
    }

    /** `print_properties`: "Tracks" lists the tracks one per line,
        "CanEditTracks" the flag, another name nothing; without a name, the
        full listing. */
    method PrintProperties(field: string) returns (out: seq<Token>)
      ensures field == "Tracks" ==> out == [Chars(ItemLines(tracks))]
      ensures field == "CanEditTracks" ==> out == [Chars(if canEditTracks then "1" else "0"), Chars("\n")]
      ensures field !in {"", "Tracks", "CanEditTracks"} ==> out == []
      ensures field == "" ==> out == TrackListListing(State())
    {
      if field != "" {
        if field == "Tracks" {
          var text := PrintItems(tracks);
          out := [Chars(text)];
        } else if field == "CanEditTracks" {
          out := [Chars(if canEditTracks then "1" else "0"), Chars("\n")];
        } else {
          out := [];
        }
        return;
      }
      var line := PrintNamedList("Tracks", tracks);
      out := [Chars(line), Chars("CanEditTracks"), Chars(": "), Chars(if canEditTracks then "1" else "0"), Chars("\n")];
    }
  }
}
