# Joujou, modelled in Dafny

Joujou plays a directory of music on a Chromecast. It does four things:

- It scans the directory for audio files and picks one cover picture.
- It serves the tracks and their embedded pictures over HTTP.
- It loads a queue of track URLs onto the receiver's Default Media Receiver.
- While playback runs, it bridges the receiver to the desktop as an MPRIS
  player. MPRIS is the freedesktop "Media Player Remote Interfacing
  Specification" on D-Bus.

The older single-file pipeline in `src/main.rs` does the same without the
bridge and without pictures.

The project models that core, one module per source file:

- `Player` (`src/player.rs`) is the shared state.
  - Class `Player` holds the last media and receiver status snapshots, one
    change signal for each, and the log of requests sent to the device.
  - Class `PlayerLoop` is `run_player`'s event loop. It publishes D-Bus
    `PropertiesChanged` batches when a snapshot changes, and it handles the
    device's messages.
- `PlayerMpris` (`src/player/mpris.rs`) holds the MPRIS getters and
  commands. The device's replies are parameters.
- `Cast` (`src/cast.rs`) holds the blocking receive loop and the rule for
  when a media-status entry ends it. The event loop applies that rule too.
- `Audio` (`src/audio.rs`) covers:
  - container kinds, chosen by extension;
  - MIME types;
  - the codec whitelist;
  - tag conversion;
  - `load_if_supported` and `load`.
- `Scan` (`src/scan.rs`) is `dir_to_playlist`. It walks the directory,
  keeps the best-scored cover and sorts the entries.
- `Cli` (`src/cli.rs`) is the `--port PORT[:PORT]` option.
- `Http` (`src/http.rs`) is `make_app`'s tables and the two lookup routes.
- `Net` (`src/net.rs`) is `bind`: the listen address and the port search.
- `LegacyMain` (`src/main.rs`) is the older pipeline. It covers the scan,
  the start-index check, the queue, and the one-route server.

Four support modules:

- `Common`: `Option`, `Result` and `Ordering`, ASCII lower-casing, and
  Rust's `u16` decimal parse and format.
- `CastProtocol`: the Cast message and status types.
- `Tags`: the tag-to-track-metadata mapping that both pipelines share.
- `Paths`: `Path::file_name`, `extension` and `file_stem`.

A Rust panic (`unwrap` on `None`, a failed `assert!`) is an explicit
outcome: `Fallible.Panics` or `StepOutcome.Panicked`. Anything that talks
to the outside is a parameter: the device's replies, file reads, the beets
database, socket binds and the walk's entries.

## Model

| member | source | states |
|---|---|---|
| Common.AsciiLowerIdempotent | src/scan.rs:116 | lower-casing an ASCII-lower-cased text changes nothing |
| Common.ParseU16 | src/cli.rs:71-72 | `u16::from_str` succeeds exactly when the text, without one leading `+`, is a non-empty run of digits worth less than 65536, and then yields that value; the empty text is the Empty error |
| Common.NatToString | src/main.rs:261 | the decimal form is non-empty and has only digits (no sign) |
| Common.NatToStringValue | src/main.rs:261 | the digits of the decimal form of `n` evaluate back to `n` |
| Common.ParseU16RoundTrip | src/main.rs:261 | the decimal form of a `u16` parses back to the same number |
| Common.NatToStringInjective | src/main.rs:261 | distinct numbers have distinct decimal forms |
| Common.DecimalValueAtLeast | src/cli.rs:71-72 | appending digits never decreases an accumulated decimal value |
| Common.DecimalValueAppend | src/cli.rs:71-72 | one more digit multiplies by ten and adds the digit |
| Common.AccumulateU16 | src/cli.rs:71-72 | the digit-by-digit accumulation fails with an overflow exactly when the digits' value exceeds 65535, and otherwise yields that value |
| Paths.LastIndexOf | src/scan.rs:75 | the last position of a character, or its absence from the text |
| Paths.LastComponent | src/scan.rs:75 | the suffix of the path after its last `/`, holding no `/` |
| Paths.FileName | src/scan.rs:75 | `Path::file_name`: the last component once trailing separators and `.` components are dropped (`music/` names `music`); absent exactly when that is empty, `.` or `..` |
| Paths.FileNameIgnoresTrailing | src/scan.rs:75 | a trailing `/` or `/.` does not change the file name |
| Paths.Extension | src/scan.rs:75 | an extension exists only for a path with a file name, and holds no `.` |
| Paths.FileStem | src/scan.rs:115 | a stem exists exactly for a path with a file name, and is a prefix of that name |
| Paths.SplitAtDot | src/scan.rs:115 | splitting a file name at its last dot: stem, dot and extension give the name back; the extension has no dot; a name whose only dot leads it has no extension |
| Paths.StemDotExtension | src/scan.rs:115 | stem `.` extension is the file name, and the extension holds neither `.` nor `/` |
| Paths.StemWithoutExtension | src/scan.rs:115 | without an extension the stem is the whole file name |
| Paths.HiddenFileHasNoExtension | src/scan.rs:75 | a name like `.cover` has no extension |
| Tags.StringOf | src/audio.rs:71-77 | a string value for a string tag, nothing for other values |
| Tags.U32Of | src/audio.rs:79-85 | an unsigned value that fits in 32 bits, nothing otherwise |
| Tags.LastWith | src/audio.rs:95-96 | a tag of the list carrying the standard key, or none exactly when no tag carries it |
| Tags.LastWithIsLast | src/audio.rs:95-96 | the tag found is the last one in the list carrying the key |
| Tags.DescribedFields | src/audio.rs:92-109 | each of the eight fields is absent when no tag carries its key, and otherwise holds the text or `u32` value of the last tag carrying it; images are empty, and no tags give the empty description |
| Tags.DescribedSnoc | src/audio.rs:96-109 | one more tag updates only the field its key maps to |
| Tags.LastWithSnoc | src/audio.rs:95-96 | a later tag with the key replaces the earlier one |
| Tags.UnmappedTagIgnored | src/audio.rs:97-107 | a tag without a standard key, or with an unmapped one, changes nothing |
| Tags.LastTagWins | src/audio.rs:95 | for multi-valued tags the last one wins, whatever follows without that key |
| Tags.LastWithSkips | src/audio.rs:95 | tags with other keys do not change which tag is last for a key |
| Tags.ConvertTags | src/audio.rs:94-109 | the loop over the tags yields exactly the declarative per-key last-tag description |
| Audio.FromExt | src/audio.rs:130-142 | recognised exactly for the seven listed extensions, each as a kind that lists it |
| Audio.MimeType | src/audio.rs:144-152 | every announced type is an `audio/` type |
| Audio.FromExtExactly | src/audio.rs:130-142 | an extension maps to a container kind exactly when it is one of that kind's listed extensions |
| Audio.FromExtLowerCaseOnly | src/audio.rs:130-142 | an extension with an upper-case letter is never recognised |
| Audio.MimeTypeInjective | src/audio.rs:144-152 | distinct kinds announce distinct `audio/` MIME types |
| Audio.ValidateCodecs | src/audio.rs:242-262 | success exactly when every track's codec is allowed for the container; otherwise the error names the first rejected codec and the container's MIME type |
| Audio.ConvertMetadata | src/audio.rs:92-118 | the track metadata is the tags' description; the picture is the first one, if any |
| Audio.LoadIfSupported | src/audio.rs:42-68 | an unknown extension gives nothing; a known one gives the file with its kind's MIME type, its own metadata replaced by the beets record when there is one; a read failure is the result, and after a successful read a database failure is |
| Audio.Load | src/audio.rs:31-37 | the file `load_if_supported` gives; its error passed through unchanged; an unknown extension the "Not a known extension" error |
| Scan.CoverKindFromExt | src/scan.rs:15-21 | `jpeg`/`jpg` is JPEG and `png` is PNG, nothing else |
| Scan.CoverMimeType | src/scan.rs:23-28 | `image/jpeg` for JPEG and `image/png` for PNG |
| Scan.CoverAndAudioDisjoint | src/scan.rs:80-102 | no extension is both a cover and an audio extension |
| Scan.CompareScores | src/scan.rs:88 | a score is greater exactly when its stem position is lower (`Reverse`) |
| Scan.StemPosition | src/scan.rs:117 | the first position of the stem among the known stems |
| Scan.CoverScore | src/scan.rs:112-124 | the score is the known stem's position, or the lowest score (`usize::MAX`) for any other stem |
| Scan.KnownStemsDistinct | src/scan.rs:114 | the known stems are pairwise distinct |
| Scan.KnownStemScore | src/scan.rs:112-124 | a file whose lower-cased stem is known stem `i` scores position `i` |
| Scan.CoverScoreRanking | src/scan.rs:112-124 | a known stem beats any unknown one, and an earlier known stem beats a later one |
| Scan.CoverScoreCaseInsensitive | src/scan.rs:116 | paths whose stems agree up to ASCII case score the same |
| Scan.VisitOf | src/scan.rs:67-102 | a walk error fails with that error; a directory or an extensionless file is skipped; a lower-cased picture extension gives the cover with its kind's MIME type; any other extension gives what the audio loader gives (its error, a skip, or the file), each keeping the entry's path |
| Scan.CollectedStep | src/scan.rs:57-104 | one more walk item extends the collected entries and covers, or ends with the first error |
| Scan.BestByIsFirstBest | src/scan.rs:85-96 | the kept element has the highest rank, and it is the first one with that rank |
| Scan.BestCoverIsFirstBest | src/scan.rs:85-99 | the kept cover scores highest and is the earliest cover with that score: a later cover replaces it only on a strictly greater score |
| Scan.PathCmp | src/scan.rs:107 | equal exactly for equal paths; a proper prefix sorts first |
| Scan.EntryCmp | src/scan.rs:105-108 | the natural order decides unless it ties; equal exactly when it ties and the paths are equal |
| Scan.PathCmpFlip | src/scan.rs:107 | path order is antisymmetric, and equal exactly for equal paths |
| Scan.PathCmpTransitive | src/scan.rs:107 | path order is transitive |
| Scan.EntryCmpTotalPreorder | src/scan.rs:105-108 | natural order, then path order, is a total preorder whenever the natural order is one |
| Scan.InsertAtSorted | src/scan.rs:105-108 | putting an element after those not greater than it, and before the first greater one, keeps a sorted sequence sorted |
| Scan.Insert | src/scan.rs:105-108 | inserting into a sorted sequence keeps it sorted and adds exactly the element |
| Scan.SortBy | src/scan.rs:105-108 | the result is sorted and a permutation of the input |
| Scan.DirToPlaylist | src/scan.rs:42-110 | fails exactly when the walk or a load fails, with that error; otherwise the cover is the best-scored, earliest cover, and the entries are the loaded audio files, sorted by natural order, then by path |
| Scan.Walk | src/scan.rs:57-104 | the loop's entries and covers are the collected ones, and its cover is the best one |
| Scan.KeepCover | src/scan.rs:85-99 | comparing with the cached score keeps the best cover of those seen so far |
| Scan.CollectedKeepsFailure | src/scan.rs:67 | once an item fails, every longer walk fails with the same error |
| Cli.ParseNonZeroU16 | src/cli.rs:71-72 | the `u16` parse, with zero rejected as its own error kind |
| Cli.SplitOnce | src/cli.rs:69 | `split_once`: the texts around the first separator, which put back together give the input; none when the separator is absent |
| Cli.Ports | src/cli.rs:35-41 | a random port is port 0, a single port itself, a range every port from start to end inclusive, in order |
| Cli.PortsFrom | src/cli.rs:39 | the inclusive range `lo..=hi`, empty when `lo > hi` |
| Cli.FromStr | src/cli.rs:67-81 | no `:` means a single port or its parse error; with a `:`, a bad start is reported first, then a bad end, and two good halves give the range when it runs upwards and `EmptyRange` otherwise; nothing parses to a random port |
| Cli.FromStrBadEnd | src/cli.rs:67-81 | `1:abc` is the end's invalid-digit error |
| Cli.FromStrDownwardRange | src/cli.rs:67-81 | `+80:0079` parses both halves and is an empty range |
| Cli.ParsedPortsAscending | src/cli.rs:35-41 | a parsed option stands for at least one port, strictly ascending |
| Cli.FromStrRoundTrip | src/cli.rs:67-81 | a port's decimal form parses back to that port, and `p:q` to the range, or `EmptyRange` when `p > q` |
| Cli.SplitOnceAt | src/cli.rs:69 | splitting at a separator absent from the left side gives both sides back |
| Cli.FromStrRejectsZero | src/cli.rs:71-79 | `0`, the empty text and a zero range start are integer errors |
| Net.ListenAddr | src/net.rs:15-18 | same IP and IPv6 scope, port and flow information zero |
| Net.WithPort | src/net.rs:26 | only the port changes |
| Net.Attempts | src/net.rs:23-43 | the addresses tried: the listen address with each port of the option, in order |
| Net.Bind | src/net.rs:11-45 | returns the first successful bind, all earlier ones having failed; or the first error when all fail; panics exactly when there is nothing to try |
| Net.BindAttemptsNonEmpty | src/net.rs:40-42 | a parsed port option never makes `bind` panic; a random port is one attempt on port 0 |
| Net.AttemptsAscend | src/net.rs:32 | the ports of a range are tried upwards |
| Http.LinkedAll | src/http.rs:96-113 | one result per entry |
| Http.LinkEntry | src/http.rs:97-111 | serves the entry's file; an entry with a picture gives it up to be served at the next index and links to it; no other entry changes |
| Http.VisualsSnoc | src/http.rs:101-107 | one more entry adds its picture, if it has one, to the served pictures |
| Http.MakeApp | src/http.rs:94-118 | one track per entry, in order; the served pictures are the entries' pictures, in entry order; each entry is replaced by its linked form |
| Http.ServeTrack | src/http.rs:68-79 | not found exactly when the id is past the tracks; otherwise the track at that id |
| Http.ServeVisual | src/http.rs:81-92 | not found exactly when the id is past the pictures; otherwise the picture at that id |
| Http.VisualsOfPrefix | src/http.rs:101-107 | entry `k`'s picture is served at the number of pictures before it |
| Http.LinkedAllAt | src/http.rs:96-113 | entry `k` is linked to the picture number the entries before it reach |
| Http.ImageLinksToVisual | src/http.rs:101-111 | no entry keeps its picture; an entry that had one links to the served visual that is its picture; the others are unchanged |
| Http.VisualNumbersAscend | src/http.rs:103 | pictures of distinct entries get distinct, ascending numbers |
| Http.VisualsPrefixMonotone | src/http.rs:103-104 | the number of pictures only grows along the entries |
| Cast.Classify | src/cast.rs:28-45 | an entry of another session is skipped; ours with an idle reason ends the loop when idle with nothing loading, panics when the player is not idle; otherwise it is accepted |
| Cast.StopIndex | src/cast.rs:28-45 | the position of the first entry that ends the loop: no earlier one does |
| Cast.StepOf | src/cast.rs:11-67 | a receive error and a peer close stop the loop; a media status stops it exactly at an ending entry; other messages continue |
| Cast.RepliesTo | src/cast.rs:13-64 | a pong exactly for a ping, a disconnect from the platform receiver exactly for a receive error, nothing else |
| Cast.SenderLoop | src/cast.rs:11-67 | consumes messages until the first stopping one and reports why it stopped; the requests sent are the pongs and the disconnect the consumed messages call for |
| Player.Merge | src/player.rs:53-77 | a status update replaces the snapshot's fields it carries and keeps the others |
| Player.MergeFullReplaces | src/player.rs:53-77 | a full update replaces the whole snapshot |
| Player.MergeIdempotent | src/player.rs:53-77 | applying the same update twice is applying it once |
| Player.MergeAllKeepsPresent | src/player.rs:53-77 | after a run of updates, a field that was present is still present |
| Player.MergeAllUncarried | src/player.rs:53-77 | after a run of updates, a field no update carries keeps its old value |
| Player.MergeAllLastCarrier | src/player.rs:53-77 | after a run of updates, a field carried by some update holds the last such update's value |
| Player.PlaybackStatusOf | src/player.rs:138-159 | playing or buffering is Playing, paused is Paused, idle is Stopped unless our next item is loading |
| Player.LoopStatusOf | src/player.rs:161-171 | repeat single is Track, repeat all (with or without shuffle) is Playlist, anything else None |
| Player.ShuffleOf | src/player.rs:173-179 | `queue_data.shuffle`, or false when there is no queue data |
| Player.VolumeOf | src/player.rs:181-188 | zero when muted, even without a level; otherwise the level, panicking when there is none |
| Player.MetadataOf | src/player.rs:190-215 | a music track's album, title, one-element artist, album artist and composer lists, track and disc numbers, first picture's URL, release date as creation date and duration; any other metadata gives only the length; panics on a track or disc number beyond `i32` |
| Player.FirstPosition | src/player.rs:222 | the first queue position of an item id |
| Player.CanGoNext | src/player.rs:217-244 | with repeat on, always; otherwise exactly when the current item's first position in the queue is before the last |
| Player.CanGoPrevious | src/player.rs:246-270 | with repeat on, always; otherwise exactly when the queue has more than one item and its first item has an id other than the current one |
| Player.CanGoPreviousMeansPredecessor | src/player.rs:246-270 | without repeat, when the current item is queued and the first item has an id, going back is allowed exactly when the current item has a predecessor |
| Player.CanGoPreviousUnqueuedCurrent | src/player.rs:262-266 | without repeat, a current item absent from a queue of two or more whose first item has an id still allows going back |
| Player.CanGoPreviousNeedsFirstId | src/player.rs:262-269 | without repeat, a first item without an id forbids going back, even with the current item second |
| Player.CanGoPreviousSingleItem | src/player.rs:246-270 | a one-item queue without repeat cannot go back |
| Player.Player.FromStatus | src/player.rs:32-47 | a player holds the given snapshots with no change pending and nothing sent |
| Player.Player.SetMediaStatus | src/player.rs:53-77 | merges the update into the media snapshot and signals the change |
| Player.Player.SetReceiverStatus | src/player.rs:83-86 | replaces the receiver snapshot and signals the change |
| Player.Player.Transport | src/player.rs:88-136 | sends the media command; on success publishes the reply, on failure returns the error and leaves the snapshot |
| Player.MediaPropsOf | src/player.rs:297-332 | the six media properties of a snapshot, or the panic of one of them |
| Player.Candidates | src/player.rs:297-332 | the six candidates compare the last published and the current values, in publishing order |
| Player.ChangedSnoc | src/player.rs:297-332 | one more candidate adds its property exactly when it changed |
| Player.ChangedMembers | src/player.rs:297-332 | a property is queued exactly when some candidate carrying it changed |
| Player.ChangedEmpty | src/player.rs:297-332 | nothing is queued exactly when no candidate changed |
| Player.ChangedRanked | src/player.rs:297-332 | the queued properties keep the candidates' order |
| Player.MediaChangesEmptyIff | src/player.rs:325-330 | a batch is emitted exactly when some media property changed, and it never carries the volume |
| Player.MediaChangesMembers | src/player.rs:297-332 | each property is in the batch, with its new value, exactly when it changed |
| Player.MediaChangesOrdered | src/player.rs:297-332 | the batch lists properties in a fixed order |
| Player.ChangedSix | src/player.rs:297-332 | the batch is the concatenation of the six per-field contributions |
| Player.MediaChangesPieces | src/player.rs:297-332 | the batch, field by field |
| Player.Compare | src/player.rs:299-328 | one comparison: the remembered value becomes the current one, and the property is queued exactly when the two differed |
| Player.Diff | src/player.rs:297-332 | the field-by-field comparison yields the current values and exactly the batch of changes |
| Player.Begin | src/player.rs:277-289 | reads the current media properties and volume, panicking exactly when one of them does, and starts a loop from them that has published nothing |
| Player.PlayerLoop.Start | src/player.rs:277-289 | the loop starts from the given values and has published nothing |
| Player.PlayerLoop.Step | src/player.rs:277-397 | one select! round: a media wake-up publishes the changed media properties, a receiver wake-up a changed volume; a message is handled like the sender loop and updates the snapshots |
| Player.PlayerLoop.MediaWake | src/player.rs:297-332 | clears the change signal, publishes one batch of the changed media properties when there is one, and remembers the values; panics as the projections do |
| Player.PlayerLoop.ReceiverWake | src/player.rs:290-296 | clears the change signal and publishes the volume when it changed |
| Player.AcceptedExactly | src/player.rs:349-369 | exactly the entries of our session that the loop applies |
| Player.PlayerLoop.ApplyMediaStatus | src/player.rs:346-372 | merges our session's entries in order up to the first ending one and stops or panics there; sends nothing and leaves the receiver status |
| Player.PlayerLoop.HandleMessage | src/player.rs:333-392 | answers pings; stops on close or receive error; merges our session's accepted status entries up to the first ending one, and stops or panics there; stores receiver statuses |
| PlayerMpris.OpenUri | src/player/mpris.rs:154-160 | loading a URI is always refused as not supported |
| PlayerMpris.ConstantAnswers | src/player/mpris.rs:29-80 | the advertised capabilities are constant and consistent: no track list, fixed rate, every URI refused |
| PlayerMpris.Position | src/player/mpris.rs:249-255 | the snapshot's current time, zero when it has none |
| PlayerMpris.Command | src/player/mpris.rs:87-121 | sends the command; a device error becomes a D-Bus failure; on success the reply is published |
| PlayerMpris.PlayPauseRequest | src/player/mpris.rs:102-110 | pause exactly while playing, play otherwise |
| PlayerMpris.PlayPause | src/player/mpris.rs:102-110 | sends pause or play according to the current playback status; publishes the reply, or on failure leaves the media snapshot and its signal; leaves the receiver status and its signal |
| PlayerMpris.Seek | src/player/mpris.rs:122-136 | sends a relative seek; fails exactly when the device does; publishes nothing |
| PlayerMpris.SetPosition | src/player/mpris.rs:137-153 | sends an absolute seek whatever the track id; fails exactly when the device does; publishes nothing |
| PlayerMpris.RepeatModeFor | src/player/mpris.rs:169-188 | never asks for repeat-and-shuffle, and turns repeat off exactly for loop status None |
| PlayerMpris.LoopStatusRoundTrip | src/player/mpris.rs:169-188 | the repeat mode asked for reads back as the requested loop status |
| PlayerMpris.RepeatModeForInjective | src/player/mpris.rs:169-188 | distinct loop statuses ask for distinct repeat modes |
| PlayerMpris.SetLoopStatus | src/player/mpris.rs:169-188 | sends the queue update and publishes the reply; a device error leaves the snapshot |
| PlayerMpris.SetShuffle | src/player/mpris.rs:202-219 | sends the queue update and publishes the reply; a device error leaves the snapshot |
| PlayerMpris.SetVolume | src/player/mpris.rs:228-248 | sets the level, then fetches and publishes the whole receiver status; nothing is published when either call fails |
| LegacyMain.FromExt | src/main.rs:101-110 | `flac`, `ogg`/`oga`/`opus` and `mp3`, each exactly |
| LegacyMain.FromExtNarrower | src/main.rs:101-110 | this pipeline accepts the newer one's extensions minus `mka` and `m4a` |
| LegacyMain.ConvertMetadata | src/main.rs:72-91 | the tags' description, without images |
| LegacyMain.LoadIfSupported | src/main.rs:45-53 | nothing for an unknown extension, otherwise the file with its metadata or the read failure |
| LegacyMain.EntryToFile | src/main.rs:171-191 | a walk error passes on, a non-file is skipped, a regular file gives exactly what `load_if_supported` gives for its path, and a file it yields has that path and a known extension |
| LegacyMain.ScanToPlaylist | src/main.rs:154-194 | succeeds only when no walk item failed, with at most one entry per item, each with a known extension |
| LegacyMain.StartIndex | src/main.rs:196-206 | a playlist with entries and a 1-based start within it gives the 0-based start; otherwise the error for an empty playlist or a start beyond it |
| LegacyMain.BuildQueue | src/main.rs:255-272 | item `i` is buffered FLAC at `http://ADDR/i` with entry `i`'s metadata |
| LegacyMain.Play | src/main.rs:196-272 | the start check, then the queue with the 0-based start and one item per entry |
| LegacyMain.TrackUrl | src/main.rs:261 | `http://ADDR/` followed by the item's index in decimal digits |
| LegacyMain.ServeOneTrack | src/main.rs:284-292 | not found exactly when the id is past the served files; otherwise the file at that id |
| LegacyMain.ServedFiles | src/main.rs:303-306 | the entries' paths, in order |
| LegacyMain.QueueUrlsServeEntries | src/main.rs:255-292 | the number at the end of item `i`'s URL parses back to `i`, under which the server gives entry `i`'s file; distinct items have distinct URLs |
| LegacyMain.TrackUrlBeyondU16 | src/main.rs:261 | from index 65536 on, the number in an item's URL does not parse as a track id |

## Left out

- The asynchronous machinery is not modelled. This covers tokio tasks, `select!`, `ArcSwap` and `Notify`. The event loop is a sequence of events, and each change signal is a flag that a wake-up consumes.
- The device link (`rust_cast` connection, launch, `load_queue`) is outside the model: replies are parameters and sent requests are a log.
- mDNS discovery (`src/net.rs:47-76`, `src/main.rs:314-343`) is not modelled: it is network I/O.
- TCP, axum routing and ranged responses are not modelled; only the lookups by index are.
- Reading files is outside the model. This covers Symphonia's format readers, the ID3v1 and ID3v2 readers (`read_metadata`) and the beets SQLite query (`beets_metadata`). Their outcomes are parameters.
- Opening the beets database in `dir_to_playlist` (`src/scan.rs:47-55`) is not modelled; its lookups are a parameter.
- Scan.DirToPlaylist: the directory walk is given as its sequence of items. Walkdir's traversal and its pruning of hidden entries are not modelled.
- LegacyMain.ScanToPlaylist: walkdir's per-directory `sort_by` is not modelled. The contract does not tie each entry to its item's path, only bounds the count and states that each entry has a known extension.
- Scan.EntryCmp: `natord::compare` is a parameter assumed to be a total preorder.
- Scan.PathCmp: `PathBuf::cmp` compares paths component by component. The model compares the paths' characters.
- Paths.FileName: paths are text. A file name or extension that is not UTF-8 is not modelled: the scanner skips such a file (`src/scan.rs:75`) and the older loader reads its extension as empty (`src/main.rs:46`).
- Paths.FileName: only trailing separators and `.` components are normalised; a root or prefix component on its own (`/`) gives no name, as in Rust.
- LegacyMain.QueueUrlsServeEntries: states the round trip only for items below index 65536, because track ids are `u16`; TrackUrlBeyondU16 shows that later items' URLs are not served.
- Scan.SortBy: the in-place `sort_by` on a `Vec` is modelled on a sequence. Its stability is not stated.
- Http.MakeApp: `url::Url::set_path` is the `withPath` parameter.
- Floating-point conversions are not modelled. This covers times, the seek offsets' `f32` casts, `cast_time_to_mpris_time` and `volume as f32`. Times and levels are reals compared by equality.
- `Quit` and `SetRate` are `todo!()` in the source and are not modelled.
- `src/mpris.rs` is not part of this model.
- The `bpaf` command-line wiring (`src/cli.rs:90-124`) is not modelled; only the port option is.
- LegacyMain.Play: the I/O between the start check and the queue is not modelled. This covers discovery, connecting, binding and launching the app. The entries printed to standard output are not modelled either.
