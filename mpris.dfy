/** The C++ `MPRIS` object (src/mpris/mpris.cpp): the list of players found
    on the session bus, the current one, its root org.mpris.MediaPlayer2
    properties, and the `Player` and `TrackList` it drives. */
module CppMpris {
  import opened Wire
  import opened Text
  import opened Common
  import opened CppPlayer
  import opened CppTrackList

  /** The substring `init_players` looks for in a bus name. */
  const MprisPrefix := "org.mpris.MediaPlayer2."

  /** The error `MPRIS` throws when no bus name matches. */
  const NoPlayersMessage := "No MPRIS players found"

  /** The bus daemon's ListNames call. */
  function ListNamesCall(): Call {
    Call("org.freedesktop.DBus", "/org/freedesktop/DBus", "org.freedesktop.DBus", "ListNames", [])
  }

  // ---------------------------------------------------------------------------
  // Player discovery and selection.

  /** The names `init_players` keeps: those containing the MPRIS prefix
      anywhere, in bus order. */
  function MprisNames(names: seq<string>): (kept: seq<string>)
    ensures |kept| <= |names|
    ensures forall i :: 0 <= i < |kept| ==> Contains(kept[i], MprisPrefix)
    decreases |names|
  {
    if names == [] then []
    else
      var n := |names| - 1;
      MprisNames(names[..n]) + (if Contains(names[n], MprisPrefix) then [names[n]] else [])
  }

  /** A name is kept exactly when the bus listed it and it contains the
      prefix, and it is kept as often as the bus listed it. */
  lemma {:induction false} MprisNamesMembers(names: seq<string>, x: string)
    ensures x in MprisNames(names) <==> x in names && Contains(x, MprisPrefix)
    ensures multiset(MprisNames(names))[x] == if Contains(x, MprisPrefix) then multiset(names)[x] else 0
    decreases |names|
  {
    if names != [] {
      var n := |names| - 1;
      MprisNamesMembers(names[..n], x);
      assert names == names[..n] + [names[n]];
    }
  }

  /** Every well-formed MPRIS bus name (one that starts with the prefix) is
      found. */
  lemma WellFormedNamesFound(names: seq<string>, x: string)
    requires x in names && MprisPrefix <= x
    ensures x in MprisNames(names)
  {
    PrefixIsContained(x, MprisPrefix);
    MprisNamesMembers(names, x);
  }

  /** The loop of `init_players` over the ListNames reply. */
  method DiscoverPlayers(names: seq<string>) returns (players: seq<string>)
    ensures players == MprisNames(names)
  {
    players := [];
    var i := 0;
    while i < |names|
      invariant 0 <= i <= |names|
      invariant players == MprisNames(names[..i])
    {
      assert names[..i + 1][..i] == names[..i];
      if Contains(names[i], MprisPrefix) {
        players := players + [names[i]];
      }
      i := i + 1;
    }
    assert names[..i] == names;
  }

  /** The index `MPRIS(player)` starts at: that of the requested name, or 0
      when it is not on the bus (and always 0 for `MPRIS()`). */
  function StartIndex(players: seq<string>, requested: Option<string>): (i: nat)
    requires players != []
    ensures i < |players|
    ensures requested.Some? && requested.value in players ==> players[i] == requested.value
  {
    if requested.Some? && requested.value in players then IndexOf(players, requested.value) else 0
  }

  /** The name `MPRIS(player)` binds its TrackList to, as written: the
      requested name, even when that player is not on the bus and the
      constructor has fallen back to the first player. */
  function TrackListTargetAsWritten(players: seq<string>, requested: Option<string>): (name: string)
    requires players != []
    ensures name in players <==> requested.None? || requested.value in players
  {
    if requested.Some? then requested.value else players[0]
  }

  /** The name the TrackList should be bound to: the player actually chosen. */
  function TrackListTarget(players: seq<string>, requested: Option<string>): (name: string)
    requires players != []
    ensures name in players
  {
    players[StartIndex(players, requested)]
  }

  /** The corrected binding always names the same player as the `Player`
      object, and it agrees with the code whenever the requested player
      exists. */
  lemma TrackListTargetAgrees(players: seq<string>, requested: Option<string>)
    requires players != []
    ensures TrackListTarget(players, requested) == players[StartIndex(players, requested)]
    ensures requested.None? || requested.value in players
      ==> TrackListTargetAsWritten(players, requested) == TrackListTarget(players, requested)
  {
  }

  /** The code's binding goes wrong for a requested name the bus does not
      list, such as the empty name read when no current player was saved:
      the Player talks to the first player, the TrackList to a name that
      is not a player at all. */
  lemma TrackListTargetAsWrittenMismatch()
    ensures TrackListTargetAsWritten(["org.mpris.MediaPlayer2.vlc"], Some("")) == ""
    ensures TrackListTarget(["org.mpris.MediaPlayer2.vlc"], Some("")) == "org.mpris.MediaPlayer2.vlc"
    ensures TrackListTargetAsWritten(["org.mpris.MediaPlayer2.vlc"], Some("")) !in ["org.mpris.MediaPlayer2.vlc"]
  {
  }

  /** `next`: the following player, wrapping to the first after the last. */
  function NextIndex(i: nat, n: nat): (j: nat)
    requires i < n
    ensures j < n
  {
    if i + 1 >= n then 0 else i + 1
  }

  /** `previous`: the preceding player, wrapping to the last before the first. */
  function PreviousIndex(i: nat, n: nat): (j: nat)
    requires i < n
    ensures j < n
  {
    if i == 0 then n - 1 else i - 1
  }

  /** Next and previous undo each other. */
  lemma NextPreviousInverse(i: nat, n: nat)
    requires i < n
    ensures PreviousIndex(NextIndex(i, n), n) == i
    ensures NextIndex(PreviousIndex(i, n), n) == i
  {
  }

  /** `next` is a step around the circle of players. */
  lemma NextIsSuccessorModulo(i: nat, n: nat)
    requires i < n
    ensures NextIndex(i, n) == (i + 1) % n
    ensures PreviousIndex(i, n) == (i + n - 1) % n
  {
  }

  /** `k` steps of `next`. */
  function NextTimes(i: nat, n: nat, k: nat): (j: nat)
    requires i < n
    ensures j < n
    decreases k
  {
    if k == 0 then i else NextIndex(NextTimes(i, n, k - 1), n)
  }

  /** Repeated `next` walks round the players in order: within one round,
      `k` steps from `i` land on `i + k`, wrapped once past the end. */
  lemma {:induction false} NextTimesWraps(i: nat, n: nat, k: nat)
    requires i < n && k <= n
    ensures NextTimes(i, n, k) == if i + k < n then i + k else i + k - n
    decreases k
  {
    if k > 0 {
      NextTimesWraps(i, n, k - 1);
    }
  }

  /** `n` steps of `next` return to the starting player. */
  lemma NextCycle(i: nat, n: nat)
    requires i < n
    ensures NextTimes(i, n, n) == i
  {
    NextTimesWraps(i, n, n);
  }

  /** Every player is reached from every other in fewer than `n` steps. */
  lemma NextReachesAll(i: nat, n: nat, j: nat)
    requires i < n && j < n
    ensures NextTimes(i, n, if j >= i then j - i else j + n - i) == j
  {
    NextTimesWraps(i, n, if j >= i then j - i else j + n - i);
  }

  /** Where `reload` leaves the TrackList pointer, as written: rebound to the
      new player when it has a track list, otherwise still pointing at
      whatever it pointed at before (possibly the previous player's). */
  function ReloadedTrackListAsWritten(before: Option<string>, hasTrackList: bool, current: string): (r: Option<string>)
    ensures hasTrackList ==> r == Some(current)
    ensures r != Some(current) ==> !hasTrackList && r == before
  {
    if hasTrackList then Some(current) else before
  }

  /** Where the pointer should be left: the new player's track list, or none. */
  function ReloadedTrackList(before: Option<string>, hasTrackList: bool, current: string): (r: Option<string>)
    ensures r.Some? <==> hasTrackList
    ensures r.Some? ==> r.value == current
  {
    if hasTrackList then Some(current) else None
  }

  /** As written, switching from a player with a track list to one without
      leaves the old TrackList reachable, so the track commands of `main`
      still go to the previous player. */
  lemma ReloadedTrackListAsWrittenStale()
    ensures ReloadedTrackListAsWritten(Some("org.mpris.MediaPlayer2.a"), false, "org.mpris.MediaPlayer2.b")
      == Some("org.mpris.MediaPlayer2.a")
    ensures ReloadedTrackList(Some("org.mpris.MediaPlayer2.a"), false, "org.mpris.MediaPlayer2.b") == None
  {
  }

  /** The two agree whenever the new player has a track list, or there was
      none before. */
  lemma ReloadedTrackListAgrees(before: Option<string>, hasTrackList: bool, current: string)
    requires hasTrackList || before.None?
    ensures ReloadedTrackListAsWritten(before, hasTrackList, current) == ReloadedTrackList(before, hasTrackList, current)
  {
  }

  // ---------------------------------------------------------------------------
  // The root interface's properties.

  datatype RootState = RootState(
    identity: string,
    desktopEntry: string,
    fullscreen: bool,
    hasTrackList: bool,
    supportedUriSchemes: seq<string>,
    supportedMimeTypes: seq<string>,
    canQuit: bool,
    canRaise: bool)

  /** What `reset_properties` and the member initialisers leave. */
  function ResetRoot(): RootState {
    RootState("", "", false, false, [], [], false, false)
  }

  /** A GetAll entry the decoder reads correctly. */
  predicate RootEntryOk(key: string, v: RemoteValue) {
    (key == "Identity" || key == "DesktopEntry" ==> v.Str? || v.ObjectPath?)
    && (key == "Fullscreen" || key == "HasTrackList" || key == "CanQuit" || key == "CanRaise" ==> v.Boolean?)
  }

  predicate RootConforms(entries: Entries) {
    forall i :: 0 <= i < |entries| ==> RootEntryOk(entries[i].0, entries[i].1)
  }

  /** One GetAll entry; the two list properties append. */
  function ApplyRootEntry(s: RootState, key: string, v: RemoteValue): RootState
    requires RootEntryOk(key, v)
  {
    if key == "Identity" then s.(identity := ExtractString(v))
    else if key == "DesktopEntry" then s.(desktopEntry := ExtractString(v))
    else if key == "Fullscreen" then s.(fullscreen := ExtractBool(v))
    else if key == "HasTrackList" then s.(hasTrackList := ExtractBool(v))
    else if key == "SupportedUriSchemes" then s.(supportedUriSchemes := AppendStrings(s.supportedUriSchemes, v))
    else if key == "SupportedMimeTypes" then s.(supportedMimeTypes := AppendStrings(s.supportedMimeTypes, v))
    else if key == "CanQuit" then s.(canQuit := ExtractBool(v))
    else if key == "CanRaise" then s.(canRaise := ExtractBool(v))
    else s
  }

  function ApplyRoot(s: RootState, entries: Entries): RootState
    requires RootConforms(entries)
    decreases |entries|
  {
    if entries == [] then s
    else
      var n := |entries| - 1;
      ApplyRootEntry(ApplyRoot(s, entries[..n]), entries[n].0, entries[n].1)
  }

  /** A flag the reply never mentions keeps its value. */
  predicate Unreported(entries: Entries, key: string) {
    forall i :: 0 <= i < |entries| ==> entries[i].0 != key
  }

  lemma {:induction false} HasTrackListUnreported(s: RootState, entries: Entries)
    requires RootConforms(entries) && Unreported(entries, "HasTrackList")
    ensures ApplyRoot(s, entries).hasTrackList == s.hasTrackList
    decreases |entries|
  {
    if entries != [] {
      var n := |entries| - 1;
      assert RootConforms(entries[..n]) && Unreported(entries[..n], "HasTrackList");
      HasTrackListUnreported(s, entries[..n]);
    }
  }

  lemma {:induction false} CanRaiseUnreported(s: RootState, entries: Entries)
    requires RootConforms(entries) && Unreported(entries, "CanRaise")
    ensures ApplyRoot(s, entries).canRaise == s.canRaise
    decreases |entries|
  {
    if entries != [] {
      var n := |entries| - 1;
      assert RootConforms(entries[..n]) && Unreported(entries[..n], "CanRaise");
      CanRaiseUnreported(s, entries[..n]);
    }
  }

  lemma {:induction false} CanQuitUnreported(s: RootState, entries: Entries)
    requires RootConforms(entries) && Unreported(entries, "CanQuit")
    ensures ApplyRoot(s, entries).canQuit == s.canQuit
    decreases |entries|
  {
    if entries != [] {
      var n := |entries| - 1;
      assert RootConforms(entries[..n]) && Unreported(entries[..n], "CanQuit");
      CanQuitUnreported(s, entries[..n]);
    }
  }

  /** A player that does not report HasTrackList is treated as having no
      track list, and one that does not report CanRaise or CanQuit is never
      sent Raise or Quit. */
  lemma UnreportedRootFlagsStayOff(s: RootState, entries: Entries)
    requires RootConforms(entries)
    ensures Unreported(entries, "HasTrackList") ==> ApplyRoot(s, entries).hasTrackList == s.hasTrackList
    ensures Unreported(entries, "CanRaise") ==> ApplyRoot(s, entries).canRaise == s.canRaise
    ensures Unreported(entries, "CanQuit") ==> ApplyRoot(s, entries).canQuit == s.canQuit
  {
    if Unreported(entries, "HasTrackList") {
      HasTrackListUnreported(s, entries);
    }
    if Unreported(entries, "CanRaise") {
      CanRaiseUnreported(s, entries);
    }
    if Unreported(entries, "CanQuit") {
      CanQuitUnreported(s, entries);
    }
  }

  /** The URI schemes after a fetch are the old ones followed by those of
      every "SupportedUriSchemes" entry, in wire order. */
  lemma {:induction false} UriSchemesCollected(s: RootState, entries: Entries)
    requires RootConforms(entries)
    ensures ApplyRoot(s, entries).supportedUriSchemes == s.supportedUriSchemes + Collected(entries, "SupportedUriSchemes")
    decreases |entries|
  {
    if entries == [] {
      assert s.supportedUriSchemes + [] == s.supportedUriSchemes;
    } else {
      var n := |entries| - 1;
      var key := "SupportedUriSchemes";
      assert RootConforms(entries[..n]);
      UriSchemesCollected(s, entries[..n]);
      var prev := ApplyRoot(s, entries[..n]);
      assert ApplyRoot(s, entries) == ApplyRootEntry(prev, entries[n].0, entries[n].1);
      AppendStringsKeepsPrefix(prev.supportedUriSchemes, entries[n].1);
      CollectedLast(entries, key);
      AppendAssoc(s.supportedUriSchemes, Collected(entries[..n], key), Added(entries[n], key));
    }
  }

  function RootGetAllCall(name: string): Call {
    Call(name, MprisPath, PropertiesInterface, "GetAll", [Str(MprisInterface)])
  }

  function RootCall(name: string, member: string): Call {
    Call(name, MprisPath, MprisInterface, member, [])
  }

  /** The calls that load a player's state, in order: the Player's GetAll
      to `current`; if that succeeded, the root GetAll to `current`; if that
      succeeded too and the player reports a track list, the TrackList's
      GetAll to `trackListName`. A failed fetch throws, so nothing follows
      it. */
  function FetchCalls(current: string, trackListName: string, playerFetch: Reply<Entries>, rootFetch: Reply<Entries>): seq<Call>
    requires rootFetch.Ok? ==> RootConforms(rootFetch.value)
  {
    [CppPlayer.GetAllCall(current)]
    + if playerFetch.Err? then []
      else
        [RootGetAllCall(current)]
        + if rootFetch.Err? || !ApplyRoot(ResetRoot(), rootFetch.value).hasTrackList then []
          else [CppTrackList.GetAllCall(trackListName)]
  }

  /** The message of the first of those fetches that failed, if any. */
  function FetchError(playerFetch: Reply<Entries>, rootFetch: Reply<Entries>, trackListFetch: Reply<Entries>): Option<string>
    requires rootFetch.Ok? ==> RootConforms(rootFetch.value)
  {
    if playerFetch.Err? then Some(playerFetch.message)
    else if rootFetch.Err? then Some(rootFetch.message)
    else if ApplyRoot(ResetRoot(), rootFetch.value).hasTrackList && trackListFetch.Err? then Some(trackListFetch.message)
    else None
  }

  /** On a first run no player was saved, so `main` asks for the empty
      name. With vlc as the only player, reporting a track list, the
      Player and root GetAll go to vlc and the TrackList's GetAll to "". */
  lemma FirstRunTrackListFetch()
    ensures var players := ["org.mpris.MediaPlayer2.vlc"];
      var entries := [("HasTrackList", Boolean(DBUS_TRUE))];
      RootConforms(entries)
      && FetchCalls(players[StartIndex(players, Some(""))], TrackListTargetAsWritten(players, Some("")), Ok([]), Ok(entries))
         == [CppPlayer.GetAllCall("org.mpris.MediaPlayer2.vlc"), RootGetAllCall("org.mpris.MediaPlayer2.vlc"),
             CppTrackList.GetAllCall("")]
  {
    var entries := [("HasTrackList", Boolean(DBUS_TRUE))];
    assert RootConforms(entries);
    assert entries[..0] == [];
    assert ApplyRoot(ResetRoot(), entries).hasTrackList;
  }

  function Flag(b: bool): string {
    if b then "1" else "0"
  }

  /** The full listing of `print_properties`. */
  function RootListing(s: RootState, current: string, players: seq<string>): seq<Token> {
    [Chars("Identity: " + s.identity + "\n"),
     Chars("DesktopEntry: " + s.desktopEntry + "\n"),
     Chars("Fullscreen: " + Flag(s.fullscreen) + "\n"),
     Chars("HasTrackList: " + Flag(s.hasTrackList) + "\n"),
     Chars(NamedListLine("SupportedUriSchemes", s.supportedUriSchemes)),
     Chars(NamedListLine("SupportedMimeTypes", s.supportedMimeTypes)),
     Chars("CanQuit: " + Flag(s.canQuit) + "\n"),
     Chars("CanRaise: " + Flag(s.canRaise) + "\n"),
     Chars("Player: " + current + "\n"),
     Chars(NamedListLine("Players", players))]
  }

  /** What `print_properties(field)` writes for a single field name. */
  function RootFieldText(s: RootState, current: string, players: seq<string>, field: string): string {
    if field == "Identity" then s.identity + "\n"
    else if field == "DesktopEntry" then s.desktopEntry + "\n"
    else if field == "Fullscreen" then Flag(s.fullscreen) + "\n"
    else if field == "HasTrackList" then Flag(s.hasTrackList) + "\n"
    else if field == "SupportedUriSchemes" then ItemLines(s.supportedUriSchemes)
    else if field == "SupportedMimeTypes" then ItemLines(s.supportedMimeTypes)
    else if field == "CanQuit" then Flag(s.canQuit) + "\n"
    else if field == "CanRaise" then Flag(s.canRaise) + "\n"
    else if field == "Player" then current + "\n"
    else if field == "Players" then ItemLines(players)
    else ""
  }

  class Mpris {
    const bus: Bus
    var players: seq<string>
    var index: nat
    var player: Player
    var trackList: TrackList?

    var identity: string
    var desktopEntry: string
    var fullscreen: bool
    var hasTrackList: bool
    var supportedUriSchemes: seq<string>
    var supportedMimeTypes: seq<string>
    var canQuit: bool
    var canRaise: bool

    function RootProperties(): RootState
      reads this
    {
      RootState(identity, desktopEntry, fullscreen, hasTrackList, supportedUriSchemes, supportedMimeTypes, canQuit, canRaise)
    }

    /** The player the TrackList pointer names, if any. */
    function TrackListBinding(): Option<string>
      reads this, trackList
    {
      if trackList == null then None else Some(trackList.name)
    }

    /** The object invariant: a non-empty player list, an index into it,
        and every helper object on the same connection. */
    predicate Valid()
      reads this, player, trackList
    {
      players != [] && index < |players| && player.bus == bus && (trackList != null ==> trackList.bus == bus)
    }

    constructor Empty(bus: Bus, players: seq<string>, index: nat, player: Player)
      ensures this.bus == bus && this.players == players && this.index == index
      ensures this.player == player && trackList == null && RootProperties() == ResetRoot()
    {
      this.bus := bus;
      this.players := players;
      this.index := index;
      this.player := player;
      trackList := null;
      identity, desktopEntry, fullscreen, hasTrackList := "", "", false, false;
      supportedUriSchemes, supportedMimeTypes, canQuit, canRaise := [], [], false, false;
    }

    /** `MPRIS()` (`requested` is None) and `MPRIS(player)`: list the bus
        names, fail when none is an MPRIS player, start at the requested
        player or fall back to the first, fetch the Player and root
        properties, and create a TrackList when the player has one. As in
        the code, the TrackList is created for the requested name
        (`TrackListTargetAsWritten`), even when that name is not on the bus
        and the Player fell back to the first player; `TrackListTarget` is
        the binding intended. */
    static method Create(bus: Bus, requested: Option<string>, names: Reply<seq<string>>,
                         playerFetch: Reply<Entries>, rootFetch: Reply<Entries>, trackListFetch: Reply<Entries>)
      returns (r: Reply<Mpris>)
      requires playerFetch.Ok? ==> PlayerConforms(playerFetch.value)
      requires rootFetch.Ok? ==> RootConforms(rootFetch.value)
      requires trackListFetch.Ok? ==> TrackListConforms(trackListFetch.value)
      modifies bus
      ensures names.Err? ==> r == Err(names.message) && bus.calls == old(bus.calls) + [ListNamesCall()]
      ensures names.Ok? && MprisNames(names.value) == [] ==>
        r == Err(NoPlayersMessage) && bus.calls == old(bus.calls) + [ListNamesCall()]
      ensures names.Ok? && MprisNames(names.value) != [] ==>
        (var players := MprisNames(names.value);
         var current := players[StartIndex(players, requested)];
         var target := TrackListTargetAsWritten(players, requested);
         bus.calls == old(bus.calls) + [ListNamesCall()] + FetchCalls(current, target, playerFetch, rootFetch)
         && (r.Err? <==> FetchError(playerFetch, rootFetch, trackListFetch).Some?)
         && (r.Err? ==> r.message == FetchError(playerFetch, rootFetch, trackListFetch).value))
      ensures r.Ok? ==> names.Ok? && playerFetch.Ok? && rootFetch.Ok?
      ensures r.Ok? ==> fresh(r.value) && fresh(r.value.player) && r.value.Valid() && r.value.bus == bus
      ensures r.Ok? ==> r.value.players == MprisNames(names.value)
      ensures r.Ok? ==> r.value.index == StartIndex(r.value.players, requested)
      ensures r.Ok? ==> r.value.player.name == r.value.players[r.value.index]
      ensures r.Ok? ==> r.value.player.State() == ApplyPlayer(ResetState(), playerFetch.value)
      ensures r.Ok? ==> r.value.RootProperties() == ApplyRoot(ResetRoot(), rootFetch.value)
      ensures r.Ok? ==> (r.value.TrackListBinding()
        == if r.value.hasTrackList then Some(TrackListTargetAsWritten(r.value.players, requested)) else None)
      ensures r.Ok? && r.value.trackList != null ==> (trackListFetch.Ok? && fresh(r.value.trackList)
        && r.value.trackList.State() == ApplyTrackList(ResetTrackList(), trackListFetch.value))
    {
      bus.calls := bus.calls + [ListNamesCall()];
      if names.Err? {
        return Err(names.message);
      }
      var players := DiscoverPlayers(names.value);
      if players == [] {
        return Err(NoPlayersMessage);
      }
      var index: nat := 0;
      var target := players[0];
      if requested.Some? {
        target := requested.value;
        var at := Find(players, requested.value);
        if at < |players| {
          index := at;
        }
      }
      r := Open(bus, players, index, target, playerFetch, rootFetch, trackListFetch);
    }

    /** The part both constructors share once the player is chosen: create
        the Player for `players[index]`, fetch the root properties, and
        create the TrackList for `trackListName` when the player reports a
        track list. The first fetch that fails ends construction with its
        message, and no later call is made. */
    static method Open(bus: Bus, players: seq<string>, index: nat, trackListName: string,
                       playerFetch: Reply<Entries>, rootFetch: Reply<Entries>, trackListFetch: Reply<Entries>)
      returns (r: Reply<Mpris>)
      requires index < |players|
      requires playerFetch.Ok? ==> PlayerConforms(playerFetch.value)
      requires rootFetch.Ok? ==> RootConforms(rootFetch.value)
      requires trackListFetch.Ok? ==> TrackListConforms(trackListFetch.value)
      modifies bus
      ensures bus.calls == old(bus.calls) + FetchCalls(players[index], trackListName, playerFetch, rootFetch)
      ensures r.Err? <==> FetchError(playerFetch, rootFetch, trackListFetch).Some?
      ensures r.Err? ==> r.message == FetchError(playerFetch, rootFetch, trackListFetch).value
      ensures r.Ok? ==> playerFetch.Ok? && rootFetch.Ok?
      ensures r.Ok? ==> fresh(r.value) && fresh(r.value.player) && r.value.Valid() && r.value.bus == bus
      ensures r.Ok? ==> r.value.players == players && r.value.index == index
      ensures r.Ok? ==> r.value.player.name == players[index]
      ensures r.Ok? ==> r.value.player.State() == ApplyPlayer(ResetState(), playerFetch.value)
      ensures r.Ok? ==> r.value.RootProperties() == ApplyRoot(ResetRoot(), rootFetch.value)
      ensures r.Ok? ==> (r.value.TrackListBinding() == if r.value.hasTrackList then Some(trackListName) else None)
      ensures r.Ok? && r.value.trackList != null ==> (trackListFetch.Ok? && fresh(r.value.trackList)
        && r.value.trackList.State() == ApplyTrackList(ResetTrackList(), trackListFetch.value))
    {
      var p := Player.Create(bus, players[index], playerFetch);
      if p.Err? {
        return Err(p.message);
      }
      var m := new Mpris.Empty(bus, players, index, p.value);
      var init := m.InitProperties(rootFetch);
      if init.Err? {
        return Err(init.message);
      }
      if m.hasTrackList {
        var t := TrackList.Create(bus, trackListName, trackListFetch);
        if t.Err? {
          return Err(t.message);
        }
        m.trackList := t.value;
      }
      return Ok(m);
    }

    /** `init_properties`: GetAll on the root interface of the current
        player and the loop over its dictionary. */
    method InitProperties(fetch: Reply<Entries>) returns (r: Reply<()>)
      requires fetch.Ok? ==> RootConforms(fetch.value)
      modifies this, bus
      ensures players == old(players) && index == old(index) && player == old(player) && trackList == old(trackList)
      ensures bus.calls == old(bus.calls) + [RootGetAllCall(player.name)]
      ensures fetch.Err? ==> r == Err(fetch.message) && RootProperties() == old(RootProperties())
      ensures fetch.Ok? ==> r == Ok(()) && RootProperties() == ApplyRoot(old(RootProperties()), fetch.value)
    {
      bus.calls := bus.calls + [RootGetAllCall(player.name)];
      if fetch.Err? {
        return Err(fetch.message);
      }
      var entries := fetch.value;
      var i := 0;
      while i < |entries|
        invariant 0 <= i <= |entries|
        invariant RootConforms(entries[..i])
        invariant players == old(players) && index == old(index) && player == old(player) && trackList == old(trackList)
        invariant bus.calls == old(bus.calls) + [RootGetAllCall(player.name)]
        invariant RootProperties() == ApplyRoot(old(RootProperties()), entries[..i])
      {
        ApplyEntry(entries[i].0, entries[i].1);
        assert entries[..i + 1][..i] == entries[..i];
        i := i + 1;
      }
      assert entries[..i] == entries;
      return Ok(());
    }

    /** One pass of the loop in `init_properties`: the chain of key
        comparisons, each decoding the value into its member. */
    method ApplyEntry(key: string, v: RemoteValue)
      requires RootEntryOk(key, v)
      modifies this
      ensures players == old(players) && index == old(index) && player == old(player) && trackList == old(trackList)
      ensures RootProperties() == ApplyRootEntry(old(RootProperties()), key, v)
    {
      if key == "Identity" {
        identity := ExtractString(v);
      } else if key == "DesktopEntry" {
        desktopEntry := ExtractString(v);
      } else if key == "Fullscreen" {
        fullscreen := ExtractBool(v);
      } else if key == "HasTrackList" {
        hasTrackList := ExtractBool(v);
      } else {
        ApplyLaterEntry(key, v);
      }
    }

    /** The chain continued from "SupportedUriSchemes" on. */
    method ApplyLaterEntry(key: string, v: RemoteValue)
      requires RootEntryOk(key, v)
      requires key != "Identity" && key != "DesktopEntry" && key != "Fullscreen" && key != "HasTrackList"
      modifies this
      ensures players == old(players) && index == old(index) && player == old(player) && trackList == old(trackList)
      ensures RootProperties() == ApplyRootEntry(old(RootProperties()), key, v)
    {
      if key == "SupportedUriSchemes" {
        supportedUriSchemes := ExtractStringList(v, supportedUriSchemes);
      } else if key == "SupportedMimeTypes" {
        supportedMimeTypes := ExtractStringList(v, supportedMimeTypes);
      } else if key == "CanQuit" {
        canQuit := ExtractBool(v);
      } else if key == "CanRaise" {
        canRaise := ExtractBool(v);
      }
    }

    /** `reset_properties`. */
    method ResetProperties()
      modifies this
      ensures players == old(players) && index == old(index) && player == old(player) && trackList == old(trackList)
      ensures RootProperties() == ResetRoot()
    {
      identity, desktopEntry, fullscreen, hasTrackList := "", "", false, false;
      supportedUriSchemes, supportedMimeTypes, canQuit, canRaise := [], [], false, false;
    }

    /** `reload`: reset, point the Player at the current name, refetch the
        root properties, then rebind or create the TrackList when the new
        player has one. When it has none the pointer is left as it was, so
        it may still name the previous player (`ReloadedTrackListAsWritten`;
        `ReloadedTrackList` is the behaviour intended). */
    method Reload(playerFetch: Reply<Entries>, rootFetch: Reply<Entries>, trackListFetch: Reply<Entries>)
      returns (r: Reply<()>)
      requires Valid()
      requires playerFetch.Ok? ==> PlayerConforms(playerFetch.value)
      requires rootFetch.Ok? ==> RootConforms(rootFetch.value)
      requires trackListFetch.Ok? ==> TrackListConforms(trackListFetch.value)
      modifies this, bus, player, trackList
      ensures Valid()
      ensures players == old(players) && index == old(index) && player == old(player)
      ensures player.name == players[index]
      ensures bus.calls == old(bus.calls) + FetchCalls(players[index], players[index], playerFetch, rootFetch)
      ensures r.Err? <==> FetchError(playerFetch, rootFetch, trackListFetch).Some?
      ensures r.Err? ==> r.message == FetchError(playerFetch, rootFetch, trackListFetch).value
      ensures playerFetch.Err? ==> player.State() == ResetState()
      ensures playerFetch.Ok? ==> player.State() == ApplyPlayer(ResetState(), playerFetch.value)
      ensures playerFetch.Err? || rootFetch.Err? ==> RootProperties() == ResetRoot()
      ensures playerFetch.Ok? && rootFetch.Ok? ==> RootProperties() == ApplyRoot(ResetRoot(), rootFetch.value)
      ensures !hasTrackList ==> trackList == old(trackList) && (trackList != null ==> unchanged(trackList))
      ensures hasTrackList && old(trackList) != null ==>
        trackList == old(trackList) && trackList.name == players[index]
        && trackList.State() == if trackListFetch.Ok? then ApplyTrackList(ResetTrackList(), trackListFetch.value) else ResetTrackList()
      ensures hasTrackList && old(trackList) == null && trackListFetch.Err? ==> trackList == null
      ensures hasTrackList && old(trackList) == null && trackListFetch.Ok? ==>
        trackList != null && fresh(trackList) && trackList.name == players[index]
        && trackList.State() == ApplyTrackList(ResetTrackList(), trackListFetch.value)
      ensures r.Ok? ==> TrackListBinding() == ReloadedTrackListAsWritten(old(TrackListBinding()), hasTrackList, players[index])
    {
      ResetProperties();
      var current := players[index];
      r := player.SetName(current, playerFetch);
      if r.Err? {
        return;
      }
      r := InitProperties(rootFetch);
      if r.Err? {
        return;
      }
      if hasTrackList && trackList != null {
        r := trackList.SetName(current, trackListFetch);
      } else if hasTrackList {
        var t := TrackList.Create(bus, current, trackListFetch);
        if t.Err? {
          return Err(t.message);
        }
        trackList := t.value;
      }
    }

    /** `next`: advance to the following player (wrapping) and reload. */
    method Next(playerFetch: Reply<Entries>, rootFetch: Reply<Entries>, trackListFetch: Reply<Entries>)
      returns (r: Reply<()>)
      requires Valid()
      requires playerFetch.Ok? ==> PlayerConforms(playerFetch.value)
      requires rootFetch.Ok? ==> RootConforms(rootFetch.value)
      requires trackListFetch.Ok? ==> TrackListConforms(trackListFetch.value)
      modifies this, bus, player, trackList
      ensures Valid() && players == old(players) && player == old(player)
      ensures index == NextIndex(old(index), |players|)
      ensures player.name == players[index]
      ensures bus.calls == old(bus.calls) + FetchCalls(players[index], players[index], playerFetch, rootFetch)
      ensures r.Err? <==> FetchError(playerFetch, rootFetch, trackListFetch).Some?
      ensures r.Err? ==> r.message == FetchError(playerFetch, rootFetch, trackListFetch).value
      ensures playerFetch.Err? ==> player.State() == ResetState()
      ensures playerFetch.Ok? ==> player.State() == ApplyPlayer(ResetState(), playerFetch.value)
      ensures playerFetch.Err? || rootFetch.Err? ==> RootProperties() == ResetRoot()
      ensures playerFetch.Ok? && rootFetch.Ok? ==> RootProperties() == ApplyRoot(ResetRoot(), rootFetch.value)
      ensures !hasTrackList ==> trackList == old(trackList) && (trackList != null ==> unchanged(trackList))
      ensures r.Ok? ==> TrackListBinding() == ReloadedTrackListAsWritten(old(TrackListBinding()), hasTrackList, players[index])
    {
      index := NextIndex(index, |players|);
      r := Reload(playerFetch, rootFetch, trackListFetch);
    }

    /** `previous`: step back to the preceding player (wrapping) and reload. */
    method Previous(playerFetch: Reply<Entries>, rootFetch: Reply<Entries>, trackListFetch: Reply<Entries>)
      returns (r: Reply<()>)
      requires Valid()
      requires playerFetch.Ok? ==> PlayerConforms(playerFetch.value)
      requires rootFetch.Ok? ==> RootConforms(rootFetch.value)
      requires trackListFetch.Ok? ==> TrackListConforms(trackListFetch.value)
      modifies this, bus, player, trackList
      ensures Valid() && players == old(players) && player == old(player)
      ensures index == PreviousIndex(old(index), |players|)
      ensures player.name == players[index]
      ensures bus.calls == old(bus.calls) + FetchCalls(players[index], players[index], playerFetch, rootFetch)
      ensures r.Err? <==> FetchError(playerFetch, rootFetch, trackListFetch).Some?
      ensures r.Err? ==> r.message == FetchError(playerFetch, rootFetch, trackListFetch).value
      ensures playerFetch.Err? ==> player.State() == ResetState()
      ensures playerFetch.Ok? ==> player.State() == ApplyPlayer(ResetState(), playerFetch.value)
      ensures playerFetch.Err? || rootFetch.Err? ==> RootProperties() == ResetRoot()
      ensures playerFetch.Ok? && rootFetch.Ok? ==> RootProperties() == ApplyRoot(ResetRoot(), rootFetch.value)
      ensures !hasTrackList ==> trackList == old(trackList) && (trackList != null ==> unchanged(trackList))
      ensures r.Ok? ==> TrackListBinding() == ReloadedTrackListAsWritten(old(TrackListBinding()), hasTrackList, players[index])
    {
      if index == 0 {
        index := |players| - 1;
      } else {
        index := index - 1;
      }
      r := Reload(playerFetch, rootFetch, trackListFetch);
    }

    /** `set_player`: an unknown name changes nothing and sends nothing; a
        known one becomes current and is reloaded. */
    method SetPlayer(name: string, playerFetch: Reply<Entries>, rootFetch: Reply<Entries>, trackListFetch: Reply<Entries>)
      returns (r: Reply<()>)
      requires Valid()
      requires playerFetch.Ok? ==> PlayerConforms(playerFetch.value)
      requires rootFetch.Ok? ==> RootConforms(rootFetch.value)
      requires trackListFetch.Ok? ==> TrackListConforms(trackListFetch.value)
      modifies this, bus, player, trackList
      ensures Valid() && players == old(players) && player == old(player)
      ensures name !in players ==>
        r == Ok(()) && unchanged(this, bus, player) && (trackList != null ==> unchanged(trackList))
      ensures name in players ==> index == IndexOf(players, name) && player.name == name
      ensures name in players ==> bus.calls == old(bus.calls) + FetchCalls(name, name, playerFetch, rootFetch)
      ensures name in players ==> (r.Err? <==> FetchError(playerFetch, rootFetch, trackListFetch).Some?)
      ensures name in players && r.Err? ==> r.message == FetchError(playerFetch, rootFetch, trackListFetch).value
      ensures name in players && playerFetch.Err? ==> player.State() == ResetState()
      ensures name in players && playerFetch.Ok? ==> player.State() == ApplyPlayer(ResetState(), playerFetch.value)
      ensures name in players && (playerFetch.Err? || rootFetch.Err?) ==> RootProperties() == ResetRoot()
      ensures name in players && playerFetch.Ok? && rootFetch.Ok? ==> RootProperties() == ApplyRoot(ResetRoot(), rootFetch.value)
      ensures !hasTrackList ==> trackList == old(trackList) && (trackList != null ==> unchanged(trackList))
      ensures name in players && r.Ok? ==>
        TrackListBinding() == ReloadedTrackListAsWritten(old(TrackListBinding()), hasTrackList, name)
    {
      var at := Find(players, name);
      if at == |players| {
        return Ok(());
      }
      index := at;
      r := Reload(playerFetch, rootFetch, trackListFetch);
    }

    /** `raise`: sent to the current player only when it reported CanRaise. */
    method Raise(reply: Reply<()>) returns (r: Reply<()>)
      modifies bus
      ensures !canRaise ==> r == Ok(()) && bus.calls == old(bus.calls)
      ensures canRaise ==> r == reply && bus.calls == old(bus.calls) + [RootCall(player.name, "Raise")]
    {
      if !canRaise {
        return Ok(());
      }
      bus.calls := bus.calls + [RootCall(player.name, "Raise")];
      return reply;
    }

    /** `quit`: sent to the current player only when it reported CanQuit. */
    method Quit(reply: Reply<()>) returns (r: Reply<()>)
      modifies bus
      ensures !canQuit ==> r == Ok(()) && bus.calls == old(bus.calls)
      ensures canQuit ==> r == reply && bus.calls == old(bus.calls) + [RootCall(player.name, "Quit")]
    {
      if !canQuit {
        return Ok(());
      }
      bus.calls := bus.calls + [RootCall(player.name, "Quit")];
      return reply;
    }

    /** `get_player` and `get_track_list`. */
    method GetPlayer() returns (p: Player)
      ensures p == player
    {
      return player;
    }

    method GetTrackList() returns (t: TrackList?)
      ensures t == trackList
    {
      return trackList;
    }

    /** `print_properties`: a single field by name (nothing for an unknown
        one), or the full listing. */
    method PrintProperties(field: string) returns (out: seq<Token>)
      ensures field != "" ==> out == [Chars(RootFieldText(RootProperties(), player.name, players, field))]
      ensures field == "" ==> out == RootListing(RootProperties(), player.name, players)
    {
      var s := RootProperties();
      if field != "" {
        var text := "";
        if field == "Identity" {
          text := s.identity + "\n";
        } else if field == "DesktopEntry" {
          text := s.desktopEntry + "\n";
        } else if field == "Fullscreen" {
          text := Flag(s.fullscreen) + "\n";
        } else if field == "HasTrackList" {
          text := Flag(s.hasTrackList) + "\n";
        } else if field == "SupportedUriSchemes" {
          text := PrintItems(s.supportedUriSchemes);
        } else if field == "SupportedMimeTypes" {
          text := PrintItems(s.supportedMimeTypes);
        } else if field == "CanQuit" {
          text := Flag(s.canQuit) + "\n";
        } else if field == "CanRaise" {
          text := Flag(s.canRaise) + "\n";
        } else if field == "Player" {
          text := player.name + "\n";
        } else if field == "Players" {
          text := PrintItems(players);
        }
        return [Chars(text)];
      }
      var uris := PrintNamedList("SupportedUriSchemes", s.supportedUriSchemes);
      var mimes := PrintNamedList("SupportedMimeTypes", s.supportedMimeTypes);
      var names := PrintNamedList("Players", players);
      out := [Chars("Identity: " + s.identity + "\n"),
              Chars("DesktopEntry: " + s.desktopEntry + "\n"),
              Chars("Fullscreen: " + Flag(s.fullscreen) + "\n"),
              Chars("HasTrackList: " + Flag(s.hasTrackList) + "\n"),
              Chars(uris), Chars(mimes),
              Chars("CanQuit: " + Flag(s.canQuit) + "\n"),
              Chars("CanRaise: " + Flag(s.canRaise) + "\n"),
              Chars("Player: " + player.name + "\n"),
              Chars(names)];
    }
  }
}
