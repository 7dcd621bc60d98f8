/** The Rust `Root` (mpris/src/root.rs): the sorted list of MPRIS players on
    the session bus, the selected one, and the root org.mpris.MediaPlayer2
    interface of that player. */
module RsRoot {
  import opened Wire
  import opened Common
  import CppMpris
  import opened RsUtil
  import opened RsPlayer

  // ---------------------------------------------------------------------------
  // Discovery: the prefix filter.

  /** The names `new` keeps: those that start with the MPRIS prefix, in bus
      order. */
  function RsMprisNames(names: seq<string>): (kept: seq<string>)
    ensures |kept| <= |names|
    ensures forall i :: 0 <= i < |kept| ==> CppMpris.MprisPrefix <= kept[i]
    decreases |names|
  {
    if names == [] then []
    else
      var n := |names| - 1;
      RsMprisNames(names[..n]) + (if CppMpris.MprisPrefix <= names[n] then [names[n]] else [])
  }

  /** A name is kept exactly when the bus listed it and it starts with the
      prefix. */
  lemma {:induction false} RsMprisNamesMembers(names: seq<string>, x: string)
    ensures x in RsMprisNames(names) <==> x in names && CppMpris.MprisPrefix <= x
    decreases |names|
  {
    if names != [] {
      var n := |names| - 1;
      RsMprisNamesMembers(names[..n], x);
      assert names == names[..n] + [names[n]];
    }
  }

  /** The Rust filter keeps a subset of what the C++ filter keeps: filtering
      the C++ side's result by prefix gives the Rust side's result, so every
      player the Rust side sees the C++ side sees too, in the same order. */
  lemma {:induction false} PrefixFilterRefinesCpp(names: seq<string>)
    ensures RsMprisNames(names) == RsMprisNames(CppMpris.MprisNames(names))
    decreases |names|
  {
    if names != [] {
      var n := |names| - 1;
      var kept := CppMpris.MprisNames(names[..n]);
      PrefixFilterRefinesCpp(names[..n]);
      if Text.Contains(names[n], CppMpris.MprisPrefix) {
        assert CppMpris.MprisNames(names) == kept + [names[n]];
        assert (kept + [names[n]])[..|kept|] == kept;
      } else {
        assert CppMpris.MprisNames(names) == kept;
        assert !(CppMpris.MprisPrefix <= names[n]) by {
          if CppMpris.MprisPrefix <= names[n] {
            Text.PrefixIsContained(names[n], CppMpris.MprisPrefix);
          }
        }
      }
    }
  }

  /** The converse fails: a name that carries the prefix in its middle is a
      player to the C++ side and not to the Rust side. */
  lemma SubstringOnlyNameDropped()
    ensures var name := "org.example." + CppMpris.MprisPrefix + "vlc";
            CppMpris.MprisNames([name]) == [name] && RsMprisNames([name]) == []
  {
    var head, pat := "org.example.", CppMpris.MprisPrefix;
    var name := head + pat + "vlc";
    var names: seq<string> := [name];
    assert name[|head|..|head| + |pat|] == pat;
    assert Text.OccursAt(name, pat, |head|);
    assert name[4] != pat[4];
    assert names[..0] == [];
  }

  // ---------------------------------------------------------------------------
  // Discovery: the sort. `Vec<String>::sort` orders by `Ord for String`,
  // which compares lexicographically by character.

  /** `a <= b` in the lexicographic order of strings. */
  predicate LexLe(a: string, b: string)
    decreases |a|
  {
    if a == [] then true
    else if b == [] then false
    else if a[0] != b[0] then a[0] < b[0]
    else LexLe(a[1..], b[1..])
  }

  lemma {:induction false} LexLeTotal(a: string, b: string)
    ensures LexLe(a, b) || LexLe(b, a)
    decreases |a|
  {
    if a != [] && b != [] && a[0] == b[0] {
      LexLeTotal(a[1..], b[1..]);
    }
  }

  lemma {:induction false} LexLeReflexive(a: string)
    ensures LexLe(a, a)
    decreases |a|
  {
    if a != [] {
      LexLeReflexive(a[1..]);
    }
  }

  lemma {:induction false} LexLeAntisymmetric(a: string, b: string)
    requires LexLe(a, b) && LexLe(b, a)
    ensures a == b
    decreases |a|
  {
    if a != [] && b != [] {
      LexLeAntisymmetric(a[1..], b[1..]);
      assert a == [a[0]] + a[1..] && b == [b[0]] + b[1..];
    }
  }

  lemma {:induction false} LexLeTransitive(a: string, b: string, c: string)
    requires LexLe(a, b) && LexLe(b, c)
    ensures LexLe(a, c)
    decreases |a|
  {
    if a != [] && b != [] && c != [] && a[0] == b[0] && b[0] == c[0] {
      LexLeTransitive(a[1..], b[1..], c[1..]);
    }
  }

  predicate Sorted(s: seq<string>) {
    forall i, j :: 0 <= i < j < |s| ==> LexLe(s[i], s[j])
  }

  /** Inserts `x` before the first element it does not exceed. */
  function Insert(x: string, s: seq<string>): (r: seq<string>)
    ensures multiset(r) == multiset(s) + multiset{x}
    decreases |s|
  {
    if s == [] then [x]
    else if LexLe(x, s[0]) then [x] + s
    else
      assert s == [s[0]] + s[1..];
      [s[0]] + Insert(x, s[1..])
  }

  /** An element below everything in an ordered list can go in front. */
  lemma ConsSorted(h: string, u: seq<string>)
    requires Sorted(u)
    requires forall e :: e in u ==> LexLe(h, e)
    ensures Sorted([h] + u)
  {
    var t := [h] + u;
    forall i, j | 0 <= i < j < |t| ensures LexLe(t[i], t[j]) {
      assert t[j] == u[j - 1] && t[j] in u;
      if i > 0 {
        assert t[i] == u[i - 1];
      }
    }
  }

  /** Inserting in front of an element it does not exceed. */
  lemma InsertFront(x: string, s: seq<string>)
    requires Sorted(s) && s != [] && LexLe(x, s[0])
    ensures Sorted([x] + s)
  {
    forall e | e in s ensures LexLe(x, e) {
      HeadIsLeast(s, e);
      LexLeTransitive(x, s[0], e);
    }
    ConsSorted(x, s);
  }

  /** The head stays in front when `x` goes further in. */
  lemma InsertBehind(x: string, s: seq<string>, u: seq<string>)
    requires Sorted(s) && s != [] && LexLe(s[0], x)
    requires Sorted(u) && multiset(u) == multiset(s[1..]) + multiset{x}
    ensures Sorted([s[0]] + u)
  {
    forall e | e in u ensures LexLe(s[0], e) {
      assert e in multiset(u);
      if e != x {
        assert e in multiset(s[1..]);
        assert e in s;
        HeadIsLeast(s, e);
      }
    }
    ConsSorted(s[0], u);
  }

  /** Inserting into an ordered list keeps it ordered and adds exactly `x`. */
  lemma {:induction false} InsertSorted(x: string, s: seq<string>)
    requires Sorted(s)
    ensures Sorted(Insert(x, s))
    ensures multiset(Insert(x, s)) == multiset(s) + multiset{x}
    decreases |s|
  {
    if s == [] {
    } else if LexLe(x, s[0]) {
      InsertFront(x, s);
    } else {
      assert Sorted(s[1..]);
      InsertSorted(x, s[1..]);
      LexLeTotal(x, s[0]);
      InsertBehind(x, s, Insert(x, s[1..]));
      assert s == [s[0]] + s[1..];
    }
  }

  /** The sort, as insertion sort. */
  function SortNames(s: seq<string>): (r: seq<string>)
    ensures multiset(r) == multiset(s)
    decreases |s|
  {
    if s == [] then []
    else
      assert s == [s[0]] + s[1..];
      Insert(s[0], SortNames(s[1..]))
  }

  /** The sorted list is ordered and holds the same names as often. */
  lemma {:induction false} SortNamesSorted(s: seq<string>)
    ensures Sorted(SortNames(s))
    ensures multiset(SortNames(s)) == multiset(s)
    decreases |s|
  {
    if s != [] {
      var t := SortNames(s[1..]);
      SortNamesSorted(s[1..]);
      InsertSorted(s[0], t);
      assert SortNames(s) == Insert(s[0], t);
    }
  }

  /** The head of an ordered list is below every element. */
  lemma HeadIsLeast(a: seq<string>, e: string)
    requires Sorted(a) && e in a
    ensures LexLe(a[0], e)
  {
    var k :| 0 <= k < |a| && a[k] == e;
    if k == 0 {
      LexLeReflexive(e);
    }
  }

  lemma MultisetTail(a: seq<string>)
    requires a != []
    ensures multiset(a[1..]) == multiset(a) - multiset{a[0]}
  {
    assert a == [a[0]] + a[1..];
  }

  /** Two ordered lists with the same elements start with the same element. */
  lemma SameHead(a: seq<string>, b: seq<string>)
    requires Sorted(a) && Sorted(b) && multiset(a) == multiset(b) && a != []
    ensures b != [] && a[0] == b[0]
  {
    assert a[0] in multiset(b);
    HeadIsLeast(b, a[0]);
    assert b[0] in multiset(a);
    HeadIsLeast(a, b[0]);
    LexLeAntisymmetric(a[0], b[0]);
  }

  /** The tail of an ordered list is ordered. */
  lemma SortedTail(a: seq<string>)
    requires Sorted(a) && a != []
    ensures Sorted(a[1..])
  {
  }

  /** Two ordered lists with the same elements are equal. */
  lemma {:induction false} SortedUnique(a: seq<string>, b: seq<string>)
    requires Sorted(a) && Sorted(b) && multiset(a) == multiset(b)
    ensures a == b
    decreases |a|
  {
    if a != [] {
      SameHead(a, b);
      MultisetTail(a);
      MultisetTail(b);
      SortedTail(a);
      SortedTail(b);
      SortedUnique(a[1..], b[1..]);
      assert a == [a[0]] + a[1..] && b == [b[0]] + b[1..];
    } else {
      assert |b| == |multiset(b)| == 0;
    }
  }

  /** Any ordering of the names into sorted order gives the same list, so
      the insertion sort stands for the library's sort exactly. */
  lemma SortNamesIsTheSort(s: seq<string>, t: seq<string>)
    requires Sorted(t) && multiset(t) == multiset(s)
    ensures t == SortNames(s)
  {
    SortNamesSorted(s);
    SortedUnique(t, SortNames(s));
  }

  // ---------------------------------------------------------------------------
  // Selection.

  predicate Distinct(s: seq<string>) {
    forall i, j :: 0 <= i < j < |s| ==> s[i] != s[j]
  }

  /** In a list without repeats, the first position of an element is its
      position. */
  lemma {:induction false} IndexOfDistinct(s: seq<string>, k: nat)
    requires Distinct(s) && k < |s|
    ensures IndexOf(s, s[k]) == k
  {
    var i := IndexOf(s, s[k]);
    assert !(i < k) && !(k < i);
  }

  /** `next_player` selects the player at `(index + 1) % len` by name, which
      lands on that very index when the names are distinct (bus names are
      unique), and that is the C++ side's `next`. */
  lemma NextPlayerAgreesWithCpp(players: seq<string>, i: nat)
    requires Distinct(players) && i < |players|
    ensures IndexOf(players, players[(i + 1) % |players|]) == CppMpris.NextIndex(i, |players|)
  {
    CppMpris.NextIsSuccessorModulo(i, |players|);
    IndexOfDistinct(players, CppMpris.NextIndex(i, |players|));
  }

  /** The size of `usize` on a 64-bit target. */
  const UsizeModulus: nat := 0x1_0000_0000_0000_0000

  /** `previous_player`'s index as written: `index - 1` on `usize`, which at
      index 0 wraps to `usize::MAX` in a release build (a debug build panics
      instead), and then `% len`. */
  function PreviousPlayerIndexAsWritten(i: nat, n: nat): (j: nat)
    requires 0 < n
    ensures j < n
    ensures 0 < i <= n ==> j == i - 1
  {
    (if i == 0 then UsizeModulus - 1 else i - 1) % n
  }

  /** The wrapping step back that was intended. */
  function PreviousPlayerIndex(i: nat, n: nat): (j: nat)
    requires i < n
    ensures j < n
  {
    (i + n - 1) % n
  }

  /** The corrected step is the C++ side's `previous`, and it agrees with the
      code everywhere but at index 0. */
  lemma PreviousPlayerIndexAgrees(i: nat, n: nat)
    requires i < n < UsizeModulus
    ensures PreviousPlayerIndex(i, n) == CppMpris.PreviousIndex(i, n)
    ensures i > 0 ==> PreviousPlayerIndexAsWritten(i, n) == PreviousPlayerIndex(i, n)
  {
    CppMpris.NextIsSuccessorModulo(i, n);
    if i > 0 {
      ModBelow(i - 1, n);
      ModOnce(i + n - 1, n);
    }
  }

  lemma ModBelow(x: nat, n: nat)
    requires x < n
    ensures x % n == x
  {
  }

  lemma ModOnce(x: nat, n: nat)
    requires 0 < n <= x < 2 * n
    ensures x % n == x - n
  {
  }

  /** With three players, stepping back from the first stays on the first
      instead of going to the last: 2^64 - 1 is a multiple of 3. */
  lemma PreviousPlayerIndexAsWrittenStuck()
    ensures PreviousPlayerIndexAsWritten(0, 3) == 0
    ensures PreviousPlayerIndex(0, 3) == 2
  {
  }

  // ---------------------------------------------------------------------------
  // The root interface's properties.

  /** `RootProperties`. */
  datatype RootProperties = RootProperties(
    identity: Option<string>,
    desktopEntry: Option<string>,
    fullscreen: Option<bool>,
    hasTrackList: Option<bool>,
    supportedMimeTypes: Option<seq<string>>,
    supportedUriSchemes: Option<seq<string>>,
    canSetFullscreen: Option<bool>,
    canQuit: Option<bool>,
    canRaise: Option<bool>)

  /** The struct literal of `get_properties`: each field is read from its
      own key, and is `None` when the key is absent or carries another wire
      type. */
  function RootPropertiesOf(props: PropertyMap): (p: RootProperties)
    ensures p.identity == if "Identity" in props && props["Identity"].Str? then Some(props["Identity"].s) else None
    ensures p.desktopEntry == if "DesktopEntry" in props && props["DesktopEntry"].Str? then Some(props["DesktopEntry"].s) else None
    ensures p.fullscreen == if "Fullscreen" in props && props["Fullscreen"].Boolean? then Some(props["Fullscreen"].raw == DBUS_TRUE) else None
    ensures p.hasTrackList == if "HasTrackList" in props && props["HasTrackList"].Boolean? then Some(props["HasTrackList"].raw == DBUS_TRUE) else None
    ensures p.supportedMimeTypes == if "SupportedMimeTypes" in props && props["SupportedMimeTypes"].StrArray? then Some(props["SupportedMimeTypes"].items) else None
    ensures p.supportedUriSchemes == if "SupportedUriSchemes" in props && props["SupportedUriSchemes"].StrArray? then Some(props["SupportedUriSchemes"].items) else None
    ensures p.canSetFullscreen == if "CanSetFullscreen" in props && props["CanSetFullscreen"].Boolean? then Some(props["CanSetFullscreen"].raw == DBUS_TRUE) else None
    ensures p.canQuit == if "CanQuit" in props && props["CanQuit"].Boolean? then Some(props["CanQuit"].raw == DBUS_TRUE) else None
    ensures p.canRaise == if "CanRaise" in props && props["CanRaise"].Boolean? then Some(props["CanRaise"].raw == DBUS_TRUE) else None
  {
    RootProperties(
      ExtractValue(props, "Identity", AsString),
      ExtractValue(props, "DesktopEntry", AsString),
      ExtractValue(props, "Fullscreen", AsBool),
      ExtractValue(props, "HasTrackList", AsBool),
      ExtractValue(props, "SupportedMimeTypes", AsStrings),
      ExtractValue(props, "SupportedUriSchemes", AsStrings),
      ExtractValue(props, "CanSetFullscreen", AsBool),
      ExtractValue(props, "CanQuit", AsBool),
      ExtractValue(props, "CanRaise", AsBool))
  }

  // ---------------------------------------------------------------------------
  // The object.

  /** `Root { connection, players, player_index, player }`. */
  class Root {
    const bus: Bus
    var players: seq<string>
    var playerIndex: Option<nat>
    var player: Option<Player>

    /** A player is selected exactly when an index is, and then it is the
        player at that index, on the same connection. */
    predicate Valid()
      reads this
    {
      (playerIndex.Some? <==> player.Some?)
      && (playerIndex.Some? ==>
            playerIndex.value < |players|
            && player.value.name == players[playerIndex.value]
            && player.value.bus == bus)
    }

    /** The struct literal in `new`, before a player is selected. */
    constructor Empty(bus: Bus, players: seq<string>)
      ensures this.bus == bus && this.players == players
      ensures playerIndex.None? && player.None? && Valid()
    {
      this.bus := bus;
      this.players := players;
      playerIndex := None;
      player := None;
    }

    /** `new`: ListNames, the prefix filter, the sort, then the first player
        (if any) selected. The `?` after `set_player` never fires, as the
        first name is in the list. */
    static method New(bus: Bus, listNames: Reply<seq<string>>) returns (r: Result<Root>)
      modifies bus
      ensures bus.calls == old(bus.calls) + [CppMpris.ListNamesCall()]
      ensures listNames.Err? ==> r == Failure(listNames.message)
      ensures listNames.Ok? ==> r.Ok? && fresh(r.value) && r.value.Valid() && r.value.bus == bus
      ensures listNames.Ok? ==> r.value.players == SortNames(RsMprisNames(listNames.value))
      ensures listNames.Ok? ==> (r.value.players == [] <==> r.value.playerIndex.None?)
      ensures listNames.Ok? && r.value.players != [] ==> r.value.playerIndex == Some(0)
    {
      bus.calls := bus.calls + [CppMpris.ListNamesCall()];
      if listNames.Err? {
        return Failure(listNames.message);
      }
      var players := SortNames(RsMprisNames(listNames.value));
      var root := new Root.Empty(bus, players);
      if players != [] {
        var first := players[0];
        var _ := root.SetPlayer(first);
      }
      return Result.Ok(root);
    }

    /** `set_player`: the first position of the name in the list and a new
        `Player` for it; an unknown name is `PlayerNotFound` and changes
        nothing. */
    method SetPlayer(name: string) returns (r: Result<()>)
      requires Valid()
      modifies this
      ensures Valid() && players == old(players)
      ensures r.Ok? <==> name in players
      ensures r.Err? ==> r.error == PlayerNotFound(name) && playerIndex == old(playerIndex) && player == old(player)
      ensures r.Ok? ==> playerIndex == Some(IndexOf(players, name))
      ensures r.Ok? ==> player.Some? && fresh(player.value) && player.value.name == name
    {
      var i := Find(players, name);
      if i == |players| {
        return Result.Err(PlayerNotFound(name));
      }
      playerIndex := Some(i);
      var p := new Player(bus, name);
      player := Some(p);
      return Result.Ok(());
    }

    /** `next_player`: nothing without a selection; otherwise the player at
        `(index + 1) % len` is selected by name. */
    method NextPlayer() returns (r: Result<()>)
      requires Valid()
      modifies this
      ensures Valid() && players == old(players) && r == Result.Ok(())
      ensures old(playerIndex).None? ==> playerIndex == old(playerIndex) && player == old(player)
      ensures old(playerIndex).Some? ==>
        (var name := players[(old(playerIndex).value + 1) % |players|];
         playerIndex == Some(IndexOf(players, name)) && player.Some? && player.value.name == name)
    {
      if playerIndex.Some? {
        var name := players[(playerIndex.value + 1) % |players|];
        var _ := SetPlayer(name);
      }
      return Result.Ok(());
    }

    /** `previous_player` as a release build runs it: `index - 1` wraps on
        `usize`, so from the first player the selection goes to
        `usize::MAX % len`, which is not the last player in general
        (`PreviousPlayerIndex` is the step intended). */
    method PreviousPlayer() returns (r: Result<()>)
      requires Valid()
      modifies this
      ensures Valid() && players == old(players) && r == Result.Ok(())
      ensures old(playerIndex).None? ==> playerIndex == old(playerIndex) && player == old(player)
      ensures old(playerIndex).Some? ==>
        (var name := players[PreviousPlayerIndexAsWritten(old(playerIndex).value, |players|)];
         playerIndex == Some(IndexOf(players, name)) && player.Some? && player.value.name == name)
    {
      if playerIndex.Some? {
        var name := players[PreviousPlayerIndexAsWritten(playerIndex.value, |players|)];
        var _ := SetPlayer(name);
      }
      return Result.Ok(());
    }

    /** `get_players`: the list taken in `new`. */
    method GetPlayers() returns (ps: seq<string>)
      ensures ps == players
    {
      return players;
    }

    /** `get_player`: the selected player, or `NoPlayerFound`. */
    method GetPlayer() returns (r: Result<Player>)
      ensures player.None? ==> r == Result.Err(NoPlayerFound)
      ensures player.Some? ==> r == Result.Ok(player.value)
    {
      if player.None? {
        return Result.Err(NoPlayerFound);
      }
      return Result.Ok(player.value);
    }

    /** `get_properties`: without a player `NoPlayerFound` and no call;
        otherwise GetAll on the root interface of the selected player. */
    method GetProperties(fetch: Reply<PropertyMap>) returns (r: Result<RootProperties>)
      modifies bus
      ensures player.None? ==> r == Result.Err(NoPlayerFound) && bus.calls == old(bus.calls)
      ensures player.Some? ==> bus.calls == old(bus.calls) + [CppMpris.RootGetAllCall(player.value.name)]
      ensures player.Some? ==>
        r == if fetch.Ok? then Result.Ok(RootPropertiesOf(fetch.value)) else Failure(fetch.message)
    {
      if player.None? {
        return Result.Err(NoPlayerFound);
      }
      bus.calls := bus.calls + [CppMpris.RootGetAllCall(player.value.name)];
      if fetch.Err? {
        return Failure(fetch.message);
      }
      return Result.Ok(RootPropertiesOf(fetch.value));
    }

    /** One root-interface call through the proxy: `NoPlayerFound` without a
        player, otherwise sent whatever CanQuit or CanRaise say. */
    method RootCommand(member: string, reply: Reply<()>) returns (r: Result<()>)
      modifies bus
      ensures player.None? ==> r == Result.Err(NoPlayerFound) && bus.calls == old(bus.calls)
      ensures player.Some? ==> bus.calls == old(bus.calls) + [CppMpris.RootCall(player.value.name, member)]
      ensures player.Some? ==> r == if reply.Ok? then Result.Ok(()) else Failure(reply.message)
    {
      if player.None? {
        return Result.Err(NoPlayerFound);
      }
      bus.calls := bus.calls + [CppMpris.RootCall(player.value.name, member)];
      if reply.Err? {
        return Failure(reply.message);
      }
      return Result.Ok(());
    }

    method Quit(reply: Reply<()>) returns (r: Result<()>)
      modifies bus
      ensures player.None? ==> r == Result.Err(NoPlayerFound) && bus.calls == old(bus.calls)
      ensures player.Some? ==> bus.calls == old(bus.calls) + [CppMpris.RootCall(player.value.name, "Quit")]
      ensures player.Some? ==> r == if reply.Ok? then Result.Ok(()) else Failure(reply.message)
    {
      r := RootCommand("Quit", reply);
    }

    method Raise(reply: Reply<()>) returns (r: Result<()>)
      modifies bus
      ensures player.None? ==> r == Result.Err(NoPlayerFound) && bus.calls == old(bus.calls)
      ensures player.Some? ==> bus.calls == old(bus.calls) + [CppMpris.RootCall(player.value.name, "Raise")]
      ensures player.Some? ==> r == if reply.Ok? then Result.Ok(()) else Failure(reply.message)
    {
      r := RootCommand("Raise", reply);
    }
  }
}
