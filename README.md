# mprisctl, modelled in Dafny

mprisctl controls media players over the MPRIS D-Bus interface
(`org.mpris.MediaPlayer2`). The repository holds two implementations:

- a C++ one on libdbus (`src/`, `include/`);
- a Rust one on zbus (`mpris/`, `mprisctl/`).

This project models the sequential logic both wrap around their bus calls:

- decoding GetAll dictionaries and the `Metadata` map into cached fields;
- the capability gates in front of every player command;
- the track-list edits;
- the player cursor and its wrap-around;
- the C++ command-line parser;
- the Rust name filter and sort, its enum conversions and its field tables;
- the Rust volume argument and volume arithmetic.

The bus is abstracted:

- `Wire.RemoteValue` is a D-Bus value: BOOLEAN (its raw `u32`), INT32, INT64, DOUBLE, STRING, OBJECT_PATH or ARRAY of STRING.
- A GetAll reply is an input sequence of `(key, value)` entries in wire order (C++) or a map (Rust).
- Every remote call is appended to the ghost log `Bus.calls`, so "no call is made" is a statement about that log.
- The outcome of a call is a `Reply<T>` parameter: `Ok(value)` or `Err(message)`.

The C++ classes `Player`, `TrackList` and `MPRIS` are Dafny classes with the source's fields. Their methods modify those fields and are proved against functions over value snapshots (`PlayerState`, `TrackListState`, `RootState`). The Rust `Root` is a class too. The pure Rust code is functions and lemmas.

Modules, one per source file:

| module | file | models |
|---|---|---|
| `Wire` | `wire.dfy` | D-Bus values, replies, the call log |
| `Text` | `text.dfy` | substring search, joining, decimal digits |
| `Common` | `common.dfy` | include/mpris/common.hpp |
| `CppPlayer` | `player.dfy` | src/mpris/player.cpp |
| `CppTrackList` | `track_list.dfy` | src/mpris/track_list.cpp |
| `CppMpris` | `mpris.dfy` | src/mpris/mpris.cpp |
| `CppMain` | `cli.dfy` | `parse_args` of src/main.cpp |
| `RsUtil` | `rs_util.dfy` | mpris/src/util.rs, the error type of mpris/src/lib.rs |
| `RsPlayer` | `rs_player.dfy` | mpris/src/player.rs |
| `RsRoot` | `rs_root.dfy` | mpris/src/root.rs |
| `RsCtl` | `mprisctl.dfy` | the pure functions of mprisctl/src/main.rs |

Where the code has a defect (see "## Findings"):

- the classes and the parser do what the code does, through the as-written function;
- the behaviour intended is a second function, with lemmas that show where the two differ and where they agree.

## Model

| member | source | states |
|---|---|---|
| Common.MetadataFieldOf | include/mpris/common.hpp:127-171 | a key selects a metadata field only when it is exactly that field's key |
| Common.MetadataKeyDispatch | include/mpris/common.hpp:127-171 | every field's own key selects that field, so the 22-key table is one-to-one |
| Common.Get | include/mpris/common.hpp:42-70 | a field holds a list exactly when it is one of the `std::vector<std::string>` fields |
| Common.DefaultMetadataIsZero | include/mpris/common.hpp:42-70 | in a default `Metadata`, every string is empty, every list is empty and every number is zero |
| Common.IndexOf | src/mpris/track_list.cpp:19-21 | `std::find`: the first position holding the value, or the length when the value is absent (also the search for `=` in src/main.cpp:278-283) |
| Common.Find | src/mpris/track_list.cpp:19-21 | the search loop returns that first position, and it returns the end exactly when the value is absent |
| Common.BoolRoundTrip | include/mpris/common.hpp:77-82 | a boolean sent as its wire `u32` decodes back to itself (true exactly for `TRUE`) |
| Common.AppendStringsKeepsPrefix | include/mpris/common.hpp:91-108 | list decoding appends: the old list is a prefix, and what is appended does not depend on it |
| Common.ExtractStringList | include/mpris/common.hpp:91-108 | a bare string appends exactly one element; an array appends all its elements in wire order after the old list; any other wire type leaves the list unchanged |
| Common.SetFrame | include/mpris/common.hpp:127-171 | decoding one entry changes only its own field: a scalar gets the decoded value, a list gets the decoded items appended (except for the two ratings; see "## Left out") |
| Common.SetTextFieldFrame | include/mpris/common.hpp:127-146 | the same for the track id, art URL, title, album and URL fields |
| Common.SetStampFieldFrame | include/mpris/common.hpp:155-162 | the same for the four date and text fields |
| Common.SetNumberFieldFrame | include/mpris/common.hpp:127-171 | the same for the integer and floating fields (except for the two ratings; see "## Left out") |
| Common.SetListFieldFrame | include/mpris/common.hpp:137-154 | the same for the six list fields, which append |
| Common.ExtractMetadataEntry | include/mpris/common.hpp:127-146 | the first ten branches of the key chain, with the later ones delegated, are exactly the entry decode |
| Common.ExtractLaterMetadataEntry | include/mpris/common.hpp:147-154 | the genre, composer, lyricist and comment branches are exactly the entry decode |
| Common.ExtractStampMetadataEntry | include/mpris/common.hpp:155-162 | the asText, contentCreated, firstUsed and lastUsed branches are exactly the entry decode |
| Common.ExtractLastMetadataEntry | include/mpris/common.hpp:163-171 | the last four branches are exactly the entry decode, and a key matching no branch changes nothing |
| Common.ExtractMetadata | include/mpris/common.hpp:110-175 | the dictionary loop applies the entries one by one in wire order |
| Common.ApplyMetadataAppend | include/mpris/common.hpp:114-174 | decoding a concatenation decodes the first part, then the second |
| Common.UnknownKeysIgnored | include/mpris/common.hpp:127-171 | a dictionary of unknown keys leaves `Metadata` unchanged |
| Common.AbsentKeyKeepsField | include/mpris/common.hpp:127-171 | a field whose key does not occur keeps its value |
| Common.LastScalarEntryWins | include/mpris/common.hpp:114-174 | when a scalar key repeats, the field ends with the value of its last entry |
| Common.ListFieldCollects | include/mpris/common.hpp:114-174 | a list field ends as its old items followed by the items of every entry under its key, in wire order |
| Common.PrintNamedList | include/mpris/common.hpp:195-204 | an empty list prints nothing; otherwise it prints `name: a, b` and a newline |
| Common.PrintItems | include/mpris/common.hpp:182-188 | one item per line; nothing for an empty list |
| Common.PrintMetadata | include/mpris/common.hpp:206-268 | a non-empty unknown field name prints nothing; a known one prints that field's value; an empty name prints the full listing |
| CppPlayer.PlayerFieldOf | src/mpris/player.cpp:314-328 | a key selects a property only when it is exactly that property's name |
| CppPlayer.PlayerFieldDispatch | src/mpris/player.cpp:314-328 | every property's name selects that property |
| CppPlayer.SetFieldFrame | src/mpris/player.cpp:314-328 | decoding one property changes that property only and leaves the metadata alone |
| CppPlayer.PropertyStep | src/mpris/player.cpp:314-329 | one GetAll entry sets the property it names and no other |
| CppPlayer.AbsentPropertyKeepsValue | src/mpris/player.cpp:298-332 | a property not reported by GetAll keeps its cached value |
| CppPlayer.LastPropertyEntryWins | src/mpris/player.cpp:298-332 | a repeated property ends with the value of its last entry |
| CppPlayer.MetadataEntriesOnly | src/mpris/player.cpp:329 | only a `Metadata` entry touches the cached metadata |
| CppPlayer.UnreportedCapabilityIsOff | src/mpris/player.cpp:338-377 | after a reset and a fetch, a capability the player does not report is off |
| CppPlayer.Clamp01 | src/mpris/player.cpp:204-205 | the volume is clamped into [0, 1]; a value already inside is unchanged, and values below or above go to 0 or 1 |
| CppPlayer.ClampIdempotentMonotone | src/mpris/player.cpp:204-205 | clamping twice is clamping once, and clamping keeps order |
| CppPlayer.Player.Empty | src/mpris/player.cpp:7-10 | a new player is bound to its bus and name, with all properties at their defaults |
| CppPlayer.Player.Create | src/mpris/player.cpp:7-10 | construction issues one GetAll; its error is the construction's error, and otherwise the state is the decoded reply |
| CppPlayer.Player.InitProperties | src/mpris/player.cpp:279-336 | one GetAll call; on error nothing changes; otherwise every entry is applied in wire order |
| CppPlayer.Player.ApplyEntry | src/mpris/player.cpp:314-317 | the first branches of the key chain apply exactly one entry |
| CppPlayer.Player.ApplyRateEntry | src/mpris/player.cpp:318-321 | the shuffle and rate branches apply exactly one entry |
| CppPlayer.Player.ApplyCapabilityEntry | src/mpris/player.cpp:322-326 | the navigation and play/pause capability branches apply exactly one entry |
| CppPlayer.Player.ApplyLastEntry | src/mpris/player.cpp:327-329 | CanSeek, CanControl and the nested metadata decode; other keys change nothing |
| CppPlayer.Player.ResetProperties | src/mpris/player.cpp:338-377 | every property and every metadata field returns to its default; the name stays |
| CppPlayer.Player.SetName | src/mpris/player.cpp:12-16 | the name is updated and the state reset, then refetched from the new name; if the fetch fails the state stays at its defaults |
| CppPlayer.Player.GetName | src/mpris/player.cpp:18-20 | returns the bound name |
| CppPlayer.Player.Command | src/mpris/player.cpp:22-38 | a gated command: no call and success when its flag is off; otherwise one call and the bus's reply |
| CppPlayer.Player.Next | src/mpris/player.cpp:22-38 | `Next` is sent only when CanGoNext is set |
| CppPlayer.Player.Previous | src/mpris/player.cpp:40-56 | `Previous` is sent only when CanGoPrevious is set |
| CppPlayer.Player.Pause | src/mpris/player.cpp:58-74 | `Pause` is sent only when CanPause is set |
| CppPlayer.Player.Play | src/mpris/player.cpp:76-92 | `Play` is sent only when CanPlay is set |
| CppPlayer.Player.PlayPause | src/mpris/player.cpp:94-110 | `PlayPause` is sent only when CanPause is set |
| CppPlayer.Player.Stop | src/mpris/player.cpp:112-128 | `Stop` is sent only when CanControl is set |
| CppPlayer.Player.Seek | src/mpris/player.cpp:130-150 | `Seek(offset)` is sent only when CanSeek is set |
| CppPlayer.Player.SetPosition | src/mpris/player.cpp:152-175 | `SetPosition` is sent only when CanSeek is set, with the cached track id as an object path and the position |
| CppPlayer.Player.OpenUri | src/mpris/player.cpp:177-199 | `OpenUri(uri)` is sent only when CanControl is set |
| CppPlayer.Player.SetVolume | src/mpris/player.cpp:201-235 | without CanControl nothing happens; otherwise the clamped volume is sent, and the cache takes it only when the call succeeds |
| CppPlayer.Player.GetVolume | src/mpris/player.cpp:237-239 | returns the cached volume without a call |
| CppPlayer.Player.GetMetadata | src/mpris/player.cpp:241-243 | returns the cached metadata without a call |
| CppPlayer.Player.PrintProperties | src/mpris/player.cpp:245-277 | an unknown name prints nothing; a known one prints that property; an empty name prints the full listing |
| CppTrackList.TracksCollected | src/mpris/track_list.cpp:198-216 | the track cache ends as the old cache followed by the paths of every `Tracks` entry, in wire order |
| CppTrackList.EditFlagNeedsReport | src/mpris/track_list.cpp:211-213 | without a `CanEditTracks` entry the edit flag keeps its value |
| CppTrackList.EraseFirstOccurrence | src/mpris/track_list.cpp:57-82 | erasing at the position `std::find` returns removes the first occurrence |
| CppTrackList.RemoveFirstCount | src/mpris/track_list.cpp:82 | removing takes exactly one copy of the id out of the tracks and shortens the list by one |
| CppTrackList.RemoveFirstAbsent | src/mpris/track_list.cpp:57-58 | removing an absent id changes nothing |
| CppTrackList.KnownIdsCount | src/mpris/track_list.cpp:128-135 | a known id is requested as often as the caller gave it; an unknown id is never requested |
| CppTrackList.KnownIdsOfKnown | src/mpris/track_list.cpp:128-135 | a request made only of known ids passes through unchanged, in order |
| CppTrackList.FilterKnown | src/mpris/track_list.cpp:128-135 | the request loop keeps the known ids in request order, and each kept id is both requested and known |
| CppTrackList.DecodeTracks | src/mpris/track_list.cpp:147-152 | one `Metadata` per reply element |
| CppTrackList.DecodeTracksPointwise | src/mpris/track_list.cpp:147-152 | element `i` is decoded from reply element `i` alone, on a fresh default |
| CppTrackList.DecodeAll | src/mpris/track_list.cpp:147-152 | the reply loop produces exactly those decodes |
| CppTrackList.TrackList.Empty | src/mpris/track_list.cpp:10-13 | a new track list is empty and not editable |
| CppTrackList.TrackList.Create | src/mpris/track_list.cpp:10-13 | construction issues one GetAll; its error is the construction's error, and otherwise the state is the decoded reply |
| CppTrackList.TrackList.InitProperties | src/mpris/track_list.cpp:176-220 | one GetAll call; on error nothing changes; otherwise every entry is applied in wire order |
| CppTrackList.TrackList.ResetProperties | src/mpris/track_list.cpp:222-225 | no tracks and editing off |
| CppTrackList.TrackList.SetName | src/mpris/track_list.cpp:160-164 | rename, reset and refetch; if the fetch fails the state stays reset |
| CppTrackList.TrackList.AddTrack | src/mpris/track_list.cpp:15-54 | without CanEditTracks, or for an anchor that is neither a known track nor NoTrack, no call and no change; a rejected AddTrack leaves the cache alone; an accepted one resets and refetches |
| CppTrackList.TrackList.RemoveTrack | src/mpris/track_list.cpp:56-83 | gated by the flag and by membership; once accepted, exactly the first occurrence of the id is erased |
| CppTrackList.TrackList.GoTo | src/mpris/track_list.cpp:85-110 | gated by the flag and by membership; never changes the tracks |
| CppTrackList.TrackList.GetMetadata | src/mpris/track_list.cpp:112-158 | requests exactly the known ids, with no edit-flag check, and returns the per-element decodes |
| CppTrackList.TrackList.PrintProperties | src/mpris/track_list.cpp:166-174 | `Tracks` prints one track per line; `CanEditTracks` prints the flag; other names print nothing; an empty name prints both |
| CppMpris.MprisNamesMembers | src/mpris/mpris.cpp:157-164 | a name is kept exactly when the bus lists it and it contains `org.mpris.MediaPlayer2.` anywhere, as often as listed |
| CppMpris.MprisNames | src/mpris/mpris.cpp:157-164 | the kept names are no more than the listed ones, and each contains the MPRIS prefix |
| CppMpris.WellFormedNamesFound | src/mpris/mpris.cpp:157-164 | every name starting with the prefix is found |
| CppMpris.DiscoverPlayers | src/mpris/mpris.cpp:135-168 | the ListNames loop keeps those names in bus order |
| CppMpris.StartIndex | src/mpris/mpris.cpp:26-32 | the start index is in range, and it is at the requested player when that player exists |
| CppMpris.TrackListTarget | src/mpris/mpris.cpp:34 | the corrected TrackList binding is always one of the players |
| CppMpris.TrackListTargetAgrees | src/mpris/mpris.cpp:26-34 | the corrected binding is the player chosen, and it agrees with the code whenever the requested player exists |
| CppMpris.TrackListTargetAsWrittenMismatch | src/mpris/mpris.cpp:34 | as written, a missing requested name binds the TrackList to that name, which is no player |
| CppMpris.TrackListTargetAsWritten | src/mpris/mpris.cpp:7-34 | as written, the TrackList's name is a player exactly when no name was requested or the requested name is on the bus |
| CppMpris.FirstRunTrackListFetch | src/mpris/mpris.cpp:19-34 | with no saved player and vlc alone on the bus, reporting a track list, the Player and root GetAll go to vlc and the TrackList's GetAll to `""` |
| CppMpris.NextIndex | src/mpris/mpris.cpp:79-83 | `next` keeps the index in range |
| CppMpris.PreviousIndex | src/mpris/mpris.cpp:85-89 | `previous` keeps the index in range |
| CppMpris.NextPreviousInverse | src/mpris/mpris.cpp:79-89 | `next` and `previous` undo each other |
| CppMpris.NextIsSuccessorModulo | src/mpris/mpris.cpp:79-89 | `next` is `(i + 1) mod n` and `previous` is `(i + n - 1) mod n` |
| CppMpris.NextTimes | src/mpris/mpris.cpp:79-83 | repeated `next` stays in range |
| CppMpris.NextTimesWraps | src/mpris/mpris.cpp:79-83 | `k` steps of `next` land on `i + k`, wrapped once |
| CppMpris.NextCycle | src/mpris/mpris.cpp:79-83 | `n` steps of `next` return to the start |
| CppMpris.NextReachesAll | src/mpris/mpris.cpp:79-83 | every player is reached from every other |
| CppMpris.ReloadedTrackList | src/mpris/mpris.cpp:236-240 | after the corrected reload, a TrackList exists exactly when the new player has one, and it is that player's |
| CppMpris.ReloadedTrackListAsWrittenStale | src/mpris/mpris.cpp:236-240 | as written, moving to a player without a track list keeps the previous player's TrackList |
| CppMpris.ReloadedTrackListAsWritten | src/mpris/mpris.cpp:236-240 | as written, a player with a track list gets its own; any other binding left is the one from before, and only when the new player has no track list |
| CppMpris.ReloadedTrackListAgrees | src/mpris/mpris.cpp:236-240 | the code and the correction agree when the new player has a track list, or when there was none before |
| CppMpris.HasTrackListUnreported | src/mpris/mpris.cpp:203-212 | an unreported HasTrackList keeps its value |
| CppMpris.CanRaiseUnreported | src/mpris/mpris.cpp:203-212 | an unreported CanRaise keeps its value |
| CppMpris.CanQuitUnreported | src/mpris/mpris.cpp:203-212 | an unreported CanQuit keeps its value |
| CppMpris.UnreportedRootFlagsStayOff | src/mpris/mpris.cpp:203-230 | the three root flags stay as reset unless the player reports them |
| CppMpris.UriSchemesCollected | src/mpris/mpris.cpp:207-208 | the URI schemes are the old list followed by every reported scheme, in wire order |
| CppMpris.Mpris.Empty | src/mpris/mpris.cpp:7-17 | the object starts with its players, index and player, no TrackList, and the root properties reset |
| CppMpris.Mpris.Create | src/mpris/mpris.cpp:7-35 | ListNames first; a bus error or no MPRIS name fails with its message after that one call; otherwise the players are the discovered names and the index is the start index. The Player and the root properties are fetched for that player, and the TrackList for the requested name (the first player for `MPRIS()`), as the code binds it. The call log is ListNames followed by those fetches up to the first that fails, and a failure returns that fetch's message |
| CppMpris.Mpris.Open | src/mpris/mpris.cpp:28-34 | the Player and root properties of the chosen player, and (with HasTrackList) a TrackList for the name given; the call log is exactly those GetAll calls up to the first that fails, and an error carries that fetch's message |
| CppMpris.Mpris.InitProperties | src/mpris/mpris.cpp:170-219 | one GetAll to the current player; on error nothing changes; otherwise the entries are applied in wire order |
| CppMpris.Mpris.ApplyEntry | src/mpris/mpris.cpp:203-206 | the first four branches of the root key chain apply exactly one entry |
| CppMpris.Mpris.ApplyLaterEntry | src/mpris/mpris.cpp:207-212 | the remaining branches apply exactly one entry, and other keys change nothing |
| CppMpris.Mpris.ResetProperties | src/mpris/mpris.cpp:221-230 | every root property back to empty or false |
| CppMpris.Mpris.Reload | src/mpris/mpris.cpp:232-241 | reset, rebind the Player to the current index and refetch. The call log is the Player, root and (with HasTrackList) TrackList GetAll, up to the first that fails, whose message is returned. A failed Player fetch leaves the Player and root properties reset. With HasTrackList the existing TrackList is renamed and refetched, or a new one created. Without it the pointer and its object are left as they were, possibly naming the previous player |
| CppMpris.Mpris.Next | src/mpris/mpris.cpp:79-83 | the index moves to the next player, wrapping; then everything `Reload` states: the calls, the error message, the reloaded Player and root properties, and the TrackList left in place without HasTrackList |
| CppMpris.Mpris.Previous | src/mpris/mpris.cpp:85-89 | the index moves to the previous player, wrapping; then everything `Reload` states: the calls, the error message, the reloaded Player and root properties, and the TrackList left in place without HasTrackList |
| CppMpris.Mpris.SetPlayer | src/mpris/mpris.cpp:91-96 | an unknown name changes nothing at all: the object, the Player, the TrackList and the call log are unchanged. A known one moves the index to its first position, then everything `Reload` states holds |
| CppMpris.Mpris.Raise | src/mpris/mpris.cpp:43-59 | `Raise` is sent only when CanRaise is set |
| CppMpris.Mpris.Quit | src/mpris/mpris.cpp:61-77 | `Quit` is sent only when CanQuit is set |
| CppMpris.Mpris.GetPlayer | src/mpris/mpris.cpp:98-100 | returns the Player object |
| CppMpris.Mpris.GetTrackList | src/mpris/mpris.cpp:102-104 | returns the TrackList object, if any |
| CppMpris.Mpris.PrintProperties | src/mpris/mpris.cpp:106-133 | a named field prints its value, and an unknown name prints nothing; an empty name prints the full listing |
| CppMain.FlagIndexAsWritten | src/main.cpp:285-287 | the code's lookup finds the first option whose short or long flag equals the argument |
| CppMain.FlagIndex | src/main.cpp:285-288 | the intended lookup finds the first option with a non-empty short flag, or the long flag, equal to the argument |
| CppMain.EmptyFlagSelectsSetPlayer | src/main.cpp:45-53 | as written, an empty flag selects `--set-player`, whose short flag is empty |
| CppMain.SetPlayerRow | src/main.cpp:45-53 | row 2 of the table is `set_player` |
| CppMain.LongFlagsPresent | src/main.cpp:28-263 | every option has a long flag |
| CppMain.EmptyFlagRejected | src/main.cpp:285-288 | with the intended lookup the empty flag is not an option |
| CppMain.FlagIndexAgrees | src/main.cpp:285-287 | both lookups agree on every non-empty flag |
| CppMain.SplitAssignmentParts | src/main.cpp:278-283 | without `=` the whole argument is the flag; otherwise the argument starts with flag, `=` and value, neither of which holds `=`, and the value runs to the next `=` or the end |
| CppMain.SplitAssignment | src/main.cpp:278-283 | the flag is a prefix of the argument, and it is shorter than the argument exactly when the argument holds `=` |
| CppMain.FromChars | src/main.cpp:309-319 | `std::from_chars` accepts only values within the 64-bit range |
| CppMain.FromCharsIntToString | src/main.cpp:309-319 | it reads back any 64-bit integer from its decimal text, whatever non-digit text follows |
| CppMain.Convert | src/main.cpp:307-340 | a conversion error names the text and the flag; an integer value is what `from_chars` reads; a string is taken as is |
| CppMain.TakeValue | src/main.cpp:296-340 | a given `=` value is used; otherwise the next argument is consumed when it does not start with `-`; otherwise the value is missing, which is an error unless optional. The value recorded is the conversion of the text taken, and the step fails exactly when that conversion fails; an empty next argument is consumed and records no value |
| CppMain.ParseStep | src/main.cpp:276-341 | one iteration consumes one or two arguments and records an option of the table, looked up as the code does (an empty flag selects `--set-player`). An unknown flag is "not a valid option", a value given to an option without one is an error, and an option with a value takes it as `TakeValue` does |
| CppMain.FirstOccurrenceWins | src/main.cpp:343 | once an option is recorded its value is never overwritten |
| CppMain.ParsedKeysAreOptions | src/main.cpp:285-343 | every key of a successful parse names an option |
| CppMain.UnknownFlagRejected | src/main.cpp:285-288 | a flag the code's lookup does not find ends the parse with the message naming it |
| CppMain.EmptyAssignmentSetsPlayer | src/main.cpp:278-287 | as written, `=vlc` parses to `set_player` "vlc" |
| CppMain.EmptyArgumentSetsPlayer | src/main.cpp:285-300 | as written, an empty argument followed by `vlc` parses to `set_player` "vlc" |
| CppMain.SeekValueRecorded | src/main.cpp:296-318 | `-s 42` consumes `42` and records `seek` as the integer 42 |
| CppMain.SeekValueRejected | src/main.cpp:278-318 | `-s=x` ends the parse with "'x' is not a valid value for -s" |
| CppMain.ReadValue | src/main.cpp:296-341 | the value-reading code computes `TakeValue` |
| CppMain.ReadOption | src/main.cpp:276-341 | the loop body computes `ParseStep`, with the code's lookup |
| CppMain.ParseArgs | src/main.cpp:272-347 | the loop computes the whole parse, in which an empty flag is taken for `--set-player` as the code does |
| RsUtil.Lookup | mpris/src/util.rs:9 | `HashMap::get` gives `Some` of the entry exactly when the key is present |
| RsUtil.ExtractValue | mpris/src/util.rs:5-11 | `Some(x)` exactly when the key is present and its value converts, and then `x` is the converted value |
| RsUtil.ExtractValueLocal | mpris/src/util.rs:9-10 | the result for one key does not depend on the entries under other keys |
| RsPlayer.PlaybackStatusFrom | mpris/src/player.rs:218-232 | exactly "Playing", "Paused" and "Stopped" convert, back to their own wire string; anything else fails with `IncorrectType` |
| RsPlayer.PlaybackStatusRoundTrip | mpris/src/player.rs:208-232 | encode, then decode, is the identity |
| RsPlayer.LoopStatusFrom | mpris/src/player.rs:251-265 | exactly "None", "Track" and "Playlist" convert, back to their own wire string; anything else fails with `IncorrectType` |
| RsPlayer.LoopStatusRoundTrip | mpris/src/player.rs:241-265 | encode, then decode, is the identity |
| RsPlayer.GetPropertiesReadsOwnKey | mpris/src/player.rs:51-67 | each of the 14 properties is read from its own key; an absent key gives `None` |
| RsPlayer.PlayerPropertiesOf | mpris/src/player.rs:51-67 | a property present in the struct had its key in the GetAll map |
| RsPlayer.PropertyAgreesWithCpp | mpris/src/player.rs:51-67 | a property that converts has the value the C++ decoder gives it |
| RsPlayer.StringFieldsReadOwnKey | mpris/src/player.rs:72-96 | each string metadata field is read from its own key |
| RsPlayer.NumberFieldsReadOwnKey | mpris/src/player.rs:72-96 | each numeric metadata field is read from its own key |
| RsPlayer.ListFieldsReadOwnKey | mpris/src/player.rs:72-96 | each list metadata field is read from its own key |
| RsPlayer.GetMetadataReadsOwnKey | mpris/src/player.rs:72-96 | every metadata field is read from its own key |
| RsPlayer.UseCountKeysDiffer | mpris/src/player.rs:94 | the user count is read from `xesam:useCount`, which the C++ table does not know; all other keys agree |
| RsPlayer.MetadataAgreesWithCpp | mpris/src/player.rs:72-96 | a field that converts has the C++ value, except for the 32-bit fields, which the C++ side reads from another wire type |
| RsPlayer.Int32TrackNumberMissing | mpris/src/player.rs:92 | an INT32 track number, as MPRIS specifies it, is dropped by the `i64` field but read by the C++ decoder |
| RsPlayer.Player.constructor | mpris/src/player.rs:10-13 | a player handle is its bus and name |
| RsPlayer.Player.GetProperties | mpris/src/player.rs:42-68 | one GetAll; a D-Bus error is returned; otherwise the struct built from the reply |
| RsPlayer.Player.GetMetadata | mpris/src/player.rs:70-97 | one read of `Metadata`; a D-Bus error is returned; otherwise the struct built from the map |
| RsPlayer.Player.Command | mpris/src/player.rs:99-127 | a command is always sent, with no capability check, and its error is returned |
| RsPlayer.Player.SetProperty | mpris/src/player.rs:149-167 | a property write is always sent, and its error is returned |
| RsPlayer.Player.Next | mpris/src/player.rs:99-102 | `Next` is sent unconditionally |
| RsPlayer.Player.Previous | mpris/src/player.rs:104-107 | `Previous` is sent unconditionally |
| RsPlayer.Player.Play | mpris/src/player.rs:109-112 | `Play` is sent unconditionally |
| RsPlayer.Player.Pause | mpris/src/player.rs:114-117 | `Pause` is sent unconditionally |
| RsPlayer.Player.PlayPause | mpris/src/player.rs:119-122 | `PlayPause` is sent unconditionally |
| RsPlayer.Player.Stop | mpris/src/player.rs:124-127 | `Stop` is sent unconditionally |
| RsPlayer.Player.Seek | mpris/src/player.rs:129-132 | `Seek(offset)` is sent unconditionally |
| RsPlayer.Player.OpenUri | mpris/src/player.rs:169-172 | `OpenUri(uri)` is sent unconditionally |
| RsPlayer.Player.SetPosition | mpris/src/player.rs:134-143 | the metadata is read first; an error is returned; with no track id nothing more is sent and the result is `Ok`; otherwise `SetPosition(trackid, position)` is sent |
| RsPlayer.Player.GetVolume | mpris/src/player.rs:145-147 | reads `Volume` from the bus |
| RsPlayer.Player.SetVolume | mpris/src/player.rs:149-152 | writes `Volume`, unclamped |
| RsPlayer.Player.SetShuffle | mpris/src/player.rs:154-157 | writes `Shuffle` |
| RsPlayer.Player.SetRate | mpris/src/player.rs:159-162 | writes `Rate` |
| RsPlayer.Player.SetLoopStatus | mpris/src/player.rs:164-167 | writes `LoopStatus` as its wire string |
| RsRoot.RsMprisNamesMembers | mpris/src/root.rs:27 | a name is kept exactly when the bus lists it and it starts with `org.mpris.MediaPlayer2.` |
| RsRoot.RsMprisNames | mpris/src/root.rs:27 | the kept names are no more than the listed ones, and each starts with the MPRIS prefix |
| RsRoot.PrefixFilterRefinesCpp | mpris/src/root.rs:27 | filtering the C++ result by prefix gives the Rust result, so Rust keeps a subset of the C++ players, in the same order |
| RsRoot.SubstringOnlyNameDropped | mpris/src/root.rs:27 | a name with the prefix in its middle is kept by C++ and dropped by Rust |
| RsRoot.LexLeTotal | mpris/src/root.rs:29 | the string order used by the sort is total |
| RsRoot.LexLeReflexive | mpris/src/root.rs:29 | it is reflexive |
| RsRoot.LexLeAntisymmetric | mpris/src/root.rs:29 | it is antisymmetric |
| RsRoot.LexLeTransitive | mpris/src/root.rs:29 | it is transitive |
| RsRoot.InsertSorted | mpris/src/root.rs:29 | inserting keeps the list sorted and adds exactly the new name |
| RsRoot.SortNamesSorted | mpris/src/root.rs:29 | the sort result is sorted and a permutation of its input |
| RsRoot.SortNames | mpris/src/root.rs:29 | the sort keeps every name as often as it was listed |
| RsRoot.SortedUnique | mpris/src/root.rs:29 | two sorted permutations of the same names are equal |
| RsRoot.SortNamesIsTheSort | mpris/src/root.rs:29 | any sorted permutation of the names is the model's sort, so the choice of algorithm does not matter |
| RsRoot.IndexOfDistinct | mpris/src/root.rs:102 | in distinct names, the first position of an element is its position |
| RsRoot.NextPlayerAgreesWithCpp | mpris/src/root.rs:115-121 | `next_player` lands on `(i + 1) % len`, the C++ `next` |
| RsRoot.PreviousPlayerIndex | mpris/src/root.rs:123-129 | the corrected step back stays in range |
| RsRoot.PreviousPlayerIndexAgrees | mpris/src/root.rs:125 | the correction is the C++ `previous`, and it agrees with the code everywhere except at index 0 |
| RsRoot.PreviousPlayerIndexAsWrittenStuck | mpris/src/root.rs:125 | with three players, the code steps back from the first player to the first |
| RsRoot.PreviousPlayerIndexAsWritten | mpris/src/root.rs:125 | the index as written stays in range and is one lower for every index from 1 on |
| RsRoot.Root.Empty | mpris/src/root.rs:31-36 | a new root holds its players and no selection |
| RsRoot.Root.New | mpris/src/root.rs:18-43 | ListNames, then the filtered and sorted names; the first name is selected at index 0 when there is one, and nothing is selected otherwise |
| RsRoot.Root.SetPlayer | mpris/src/root.rs:101-113 | an unknown name fails with `PlayerNotFound(name)` and changes nothing; a known one selects its first position and a player of that name |
| RsRoot.Root.NextPlayer | mpris/src/root.rs:115-121 | with no selection nothing happens; otherwise the player at `(index + 1) % len` is selected |
| RsRoot.Root.PreviousPlayer | mpris/src/root.rs:123-129 | with no selection nothing happens; otherwise the player at `(index - 1) % len` on a wrapping `usize` is selected, as a release build computes it |
| RsRoot.Root.GetPlayers | mpris/src/root.rs:93-95 | the list taken in `new` |
| RsRoot.Root.GetPlayer | mpris/src/root.rs:97-99 | the selected player, or `NoPlayerFound` |
| RsRoot.RootPropertiesOf | mpris/src/root.rs:66-76 | each root property is read from its own key, and is `None` when the key is absent or carries another wire type |
| RsRoot.Root.GetProperties | mpris/src/root.rs:56-81 | `NoPlayerFound` without a selection; otherwise one GetAll to it, and the struct built from the reply |
| RsRoot.Root.RootCommand | mpris/src/root.rs:45-54 | `NoPlayerFound` without a selection; otherwise the call is sent with no capability check |
| RsRoot.Root.Quit | mpris/src/root.rs:83-86 | `Quit` is sent to the selected player with no capability check |
| RsRoot.Root.Raise | mpris/src/root.rs:88-91 | `Raise` is sent to the selected player with no capability check |
| RsCtl.VolumeFromStr | mprisctl/src/main.rs:44-64 | errors are "Invalid number" or "Value must be 0-1"; an absolute volume is the parsed text and lies in [0, 1]; a step is the text before a final `+` or `-` |
| RsCtl.VolumeSuffixes | mprisctl/src/main.rs:48-54 | a final `+` gives `Increment` and a final `-` gives `Decrement`, with no range check |
| RsCtl.VolumeAbsolute | mprisctl/src/main.rs:55-61 | without a suffix the result is `Set(v)` exactly when the text parses to `v` in [0, 1]; unparsable text is "Invalid number" |
| RsCtl.SaturateI64 | mprisctl/src/main.rs:279 | `f64 as i64` saturates at the bounds of `i64` |
| RsCtl.WrapI64 | mprisctl/src/main.rs:279 | `i64` addition wraps into the 64-bit range |
| RsCtl.ClampPercent | mprisctl/src/main.rs:279 | `clamp(0, 100)` lands in [0, 100] and keeps values already there |
| RsCtl.AdjustVolume | mprisctl/src/main.rs:278-281 | the corrected volume lies in [0, 1]: the percentage sum over 100 when it is in [0, 100], and 0 or 1 beyond |
| RsCtl.AdjustVolumeMonotone | mprisctl/src/main.rs:278-281 | a larger step never gives a lower volume |
| RsCtl.AdjustVolumeAgrees | mprisctl/src/main.rs:279 | the code equals the correction whenever the sum fits in `i64` |
| RsCtl.AdjustVolumeAsWrittenOverflow | mprisctl/src/main.rs:279 | an oversized increment wraps the sum and drops the volume to 0 |
| RsCtl.AdjustVolumeAsWritten | mprisctl/src/main.rs:278-281 | as written, the volume still lies in [0, 1] whatever the overflow |
| RsCtl.StringFieldsShown | mprisctl/src/main.rs:66-95 | each string field is shown under its own key |
| RsCtl.NumberFieldsShown | mprisctl/src/main.rs:66-95 | each integer field is shown under its own key |
| RsCtl.RealFieldsShown | mprisctl/src/main.rs:66-95 | each floating field is shown under its own key |
| RsCtl.ListFieldsShown | mprisctl/src/main.rs:66-95 | each list field is shown under its own key, joined with ", " |
| RsCtl.GetMetadataFieldTable | mprisctl/src/main.rs:66-95 | a known name shows its field (`None` when the field is absent); an unknown name gives `None` |
| RsCtl.GetMetadataField | mprisctl/src/main.rs:66-95 | only a name of the C++ metadata key table shows anything |
| RsCtl.UserCountShownUnderOtherName | mprisctl/src/main.rs:91 | `xesam:userCount` shows the value the library read from `xesam:useCount`; `xesam:useCount` itself shows nothing |
| RsCtl.Listing | mprisctl/src/main.rs:352-357 | a listing prints at most one line per name walked |
| RsCtl.ListingAppend | mprisctl/src/main.rs:352-357 | the listing of consecutive names is the first part's lines followed by the rest's, so lines follow the order of the names |
| RsCtl.ListingLines | mprisctl/src/main.rs:352-357 | a line `name: value` is printed exactly when the name is walked and its field shows that value |
| RsCtl.MetadataListingNamesExact | mprisctl/src/main.rs:328-351 | the metadata listing walks exactly the names `get_metadata_field` knows |
| RsCtl.MetadataListingShowsEveryField | mprisctl/src/main.rs:328-357 | the metadata listing prints a line for every field that shows a value, with that value, and nothing else |
| RsCtl.MetadataListingCoversFields | mprisctl/src/main.rs:328-351 | the metadata listing covers every field |
| RsCtl.MetadataListingSpelled | mprisctl/src/main.rs:328-351 | each name of the listing is its field's key |
| RsCtl.RootTextShown | mprisctl/src/main.rs:99-100 | Identity and DesktopEntry are shown from their own keys |
| RsCtl.RootFlagShown | mprisctl/src/main.rs:101-107 | the root flags are shown from their own keys |
| RsCtl.RootListShown | mprisctl/src/main.rs:103-104 | the two root lists are shown from their own keys, joined with ", " |
| RsCtl.RootFieldShowsOwnKey | mprisctl/src/main.rs:97-110 | every root name is shown from its own key, and an unknown name gives `None` |
| RsCtl.GetRootPropertiesField | mprisctl/src/main.rs:97-110 | only a root property name (a text, flag or list property) shows anything |
| RsCtl.GetPlayerPropertiesFieldTable | mprisctl/src/main.rs:112-130 | a known property name shows that property; an unknown name gives `None` |
| RsCtl.GetPlayerPropertiesField | mprisctl/src/main.rs:112-130 | only a Player-interface property name shows anything |
| RsCtl.PlayerFieldShowsOwnKey | mprisctl/src/main.rs:112-130 | every player property is shown from its own GetAll key |
| RsCtl.PlayerListingComplete | mprisctl/src/main.rs:393-408 | the player listing names every property |
| RsCtl.PlayerListingNamesExact | mprisctl/src/main.rs:393-408 | the player listing walks exactly the names `get_player_properties_field` knows |
| RsCtl.PlayerListingShowsEveryField | mprisctl/src/main.rs:393-414 | the player listing prints a line for every property that shows a value, with that value, and nothing else |
| RsCtl.RootListingNamesExact | mprisctl/src/main.rs:367-377 | the root listing walks exactly the names `get_root_properties_field` knows |
| RsCtl.RootListingShowsEveryField | mprisctl/src/main.rs:367-383 | the root listing prints a line for every root property that shows a value, with that value, and nothing else, in the order `Identity`, `DesktopEntry`, `Fullscreen`, `HasTrackList`, `SupportedMimeTypes`, `SupportedUriSchemes`, `CanSetFullscreen`, `CanQuit`, `CanRaise` |

## Left out

- The bus itself is not modelled. Two layers stand for it:
  - a call log and reply parameters stand for libdbus message building, `dbus_connection_send_with_reply_and_block`, the zbus proxies (mpris/src/proxy.rs) and tokio;
  - `Bus.calls` records which calls are issued, not their timing or blocking.
- Connecting to the session bus (`dbus_bus_get`, `Connection::session`) and building a proxy for a destination can fail. These failures are not modelled, because they depend on the environment, not on the code.
- The scalar `extract<T>` (include/mpris/common.hpp:72-75) reads the value with no wire-type check, which is undefined behaviour for a wrong type.
  - The model instead requires the dictionary to carry each scalar key's declared wire type (`MetadataConforms`, `PlayerConforms`, `RootConforms`, `TrackListConforms`).
  - No error path is invented.
- The null-pointer guard of the list decoder (include/mpris/common.hpp:97,104) is not modelled. A STRING from libdbus is never null, so the guard never fires.
- The floating rating fields: the model reads them as the DOUBLE they arrive as. In the code, `xesam_auto_rating` and `xesam_user_rating` are 4-byte `float`s (include/mpris/common.hpp:66-67), and `extract` hands their address to `get_basic`, which writes all 8 bytes of the DOUBLE (include/mpris/common.hpp:166-169). That is undefined behaviour: the float receives raw bits of the double, not its value, and the following member is overwritten too. The model has no byte layout, so it does not capture this.
- Common.SetFrame: for `xesam:autoRating` and `xesam:userRating` the code also overwrites the next member (`xesam_user_rating`, and `xesam_audio_bpm` respectively). The model states that only the rating changes.
- Common.SetNumberFieldFrame: the same two keys overwrite the next member in the code. The model states that only the rating changes.
- Floating point in general:
  - volume, rate and ratings are `real`;
  - `std::stod` and `str::parse::<f64>` are parameters (`parseDouble`, `parseF64`);
  - the `.round()` of `adjust_volume` is outside the model, whose arguments are the rounded percentages;
  - the text of a printed float is a `Float` token, not its digits.
- CppTrackList.TrackList.GetMetadata: the ids are logged as a `StrArray`, while the code sends an array of object paths (`ao`). The model has one constructor for both array types.
- Output goes to a token list, not to `std::cout` or `println!`. Stream formatting beyond the separators is left out.
- The help screen (`display_help`, src/main.cpp:349-407) and the argument dispatch in `main` (src/main.cpp:409-507) are left out. The dispatch is glue around the modelled operations.
- The Rust `run` and its clap definitions (mprisctl/src/main.rs:132-443) are left out. The three field tables are modelled, and so are the three full listings: `RsCtl.Listing` over `MetadataListingNames`, `PlayerListingNames` and `RootListingNames`, as lines of name and value rather than printed text.
- Persisting the current player in a file is left out, in both front ends, because it is file I/O.
- Destructors and memory management (src/mpris/mpris.cpp:37-41) are left out.
- RsRoot.Root.PreviousPlayer: models a release build, where `index - 1` wraps on `usize`. A debug build panics at index 0, and a panic is not modelled.
- CppPlayer.Player.Empty: the header gives `Player`'s fields and `TrackList`'s edit flag no initialisers. The model assumes they start at the values `reset_properties` gives them.
- RsRoot.SortNames: `Vec::sort` is modelled as an insertion sort. `RsRoot.SortNamesIsTheSort` shows that any algorithm producing a sorted permutation gives the same list.
- RsUtil.Error: the `DBusFdo` variant is folded into `DBus`. Both carry the bus's message only, and the model keeps only that message.
- The zvariant conversions (`AsString`, `AsI64` and the rest) are modelled as accepting exactly their own wire type. zvariant's own rules are not part of this model.
- RsPlayer.Player.SetPosition: `ObjectPath::try_from` of the track id is taken to succeed. The id came from an OBJECT_PATH, so it is valid.
- CppPlayer.Player.Seek and CppPlayer.Player.SetPosition: offsets and positions are unbounded integers, so the `int64_t` range is not enforced. The code passes them through unchanged.

## Findings

| source | as written | input that shows it | evidently intended | confidence | as-written member | corrected member |
|---|---|---|---|---|---|---|
| src/mpris/mpris.cpp:34 | `MPRIS(player)` builds its TrackList for the requested `player`, even after falling back to `_players[0]` because that name is not on the bus | players `["org.mpris.MediaPlayer2.vlc"]`, requested `""` (no saved player): the Player talks to vlc, the TrackList to `""` (`CppMpris.TrackListTargetAsWrittenMismatch`, and the calls `Mpris.Create` makes in `CppMpris.FirstRunTrackListFetch`) | bind the TrackList to the player actually chosen, `_players[_current_player_index]` | not executed | CppMpris.TrackListTargetAsWritten | CppMpris.TrackListTarget |
| src/mpris/mpris.cpp:236-240 | `reload` rebinds or creates the TrackList only when the new player has one, and otherwise leaves the old pointer in place | switch from `org.mpris.MediaPlayer2.a` (with a track list) to `org.mpris.MediaPlayer2.b` (without): `get_track_list` still returns a's list (`CppMpris.ReloadedTrackListAsWrittenStale`) | drop the TrackList when the new player has none | not executed | CppMpris.ReloadedTrackListAsWritten | CppMpris.ReloadedTrackList |
| src/main.cpp:285-287 | the option lookup compares the argument with the short flag even when the short flag is empty | the argument `""`, or one starting with `=` such as `=x`, is taken for `--set-player` (`CppMain.EmptyFlagSelectsSetPlayer`; `=vlc` parses to `set_player` "vlc" in `CppMain.EmptyAssignmentSetsPlayer`) | an empty short flag means "no short flag" and matches nothing | not executed | CppMain.FlagIndexAsWritten | CppMain.FlagIndex |
| mpris/src/root.rs:125 | `previous_player` computes `(index - 1) % len` on `usize` | index 0 of 3 players: in a release build `usize::MAX % 3 == 0`, so the selection stays on the first player (a debug build panics) (`RsRoot.PreviousPlayerIndexAsWrittenStuck`) | wrap to the last player, `(index + len - 1) % len`, as the C++ `previous` does | not executed | RsRoot.PreviousPlayerIndexAsWritten | RsRoot.PreviousPlayerIndex |
| mprisctl/src/main.rs:279 | `adjust_volume` adds the two percentages as `i64` after a saturating cast | `set-volume 1e17+` at 50%: the step saturates to `i64::MAX`, the sum wraps negative and the volume drops to 0 (a debug build panics) (`RsCtl.AdjustVolumeAsWrittenOverflow`) | a saturating sum, so the volume goes to 100% | not executed | RsCtl.AdjustVolumeAsWritten | RsCtl.AdjustVolume |
