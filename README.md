# song_sheet in Dafny

song_sheet turns song texts into one LaTeX song book. This project models its core in Dafny and proves properties of that model.

- **Front ends.** There are two of them. The plain-text parser reads a title line, a blank line and then stanzas separated by blank lines. A stanza opened by `#c` is the chorus and one opened by `#b` is the bridge. A stanza not opened by `#` is a verse, and a `#` followed by anything else stops the parse with an invalid tag. The VideoPsalm reader walks through already decoded song records and sorts each stanza by its numeric tag.
- **Songs.** The plain-text parser fills the mutable `Song` of `src/lib.rs`. Its `set_order` accepts an order string only when the song has the chorus and bridge that the order names, and when the order has at least as many `v` as the song has verses. The VideoPsalm reader uses the consuming `SongBuilder` of `src/song.rs`. Its `build` makes the same checks and two more: an order must have been set, and at least one verse must have been added.
- **Output.** The `Latex` document object of `src/latex.rs` stores a document class, options, a version, packages, stanza formats, a cover and extra preamble text, plus the songs added to it. `write_to_file` writes one long sequence of lines. In the model this is the value `Emission`: the lines written, and whether the run stopped at the verse cursor. That stop is a panic in the source, at `s.verses[cur_verse]`.
- **Parser type.** `ParserType` is the configuration value that picks a front end. Its `Deserialize` lowercases a string and strips separators. Its `Display` writes the name back.

Modules:

- `Wrappers`: `Option` and `Result`.
- `Text`: counting, joining, decimal rendering and substring search over `string`.
- `Songs`: `src/song.rs`, as pure functions on values.
- `Lib`: `src/lib.rs`, a class with a value snapshot.
- `Parser`: `src/parser/mod.rs`.
- `PlainText`: `src/parser/plain_text.rs`. The parser combinators are functions, and `parse` is a method with its loop.
- `VideoPsalm`: `src/parser/video_psalm.rs`, a method with its two loops.
- `Latex`: `src/latex.rs`. The document object is a class. Its output is specified by the function `Document`.
- `Pipeline`: joins the plain-text front end to the LaTeX output.

The methods with loops are proved against specification functions. `PlainText.Parse` is proved against `PlainText.Parsed`, and `VideoPsalm.Parse` against `VideoPsalm.AllSongs`. `Latex.Latex.WriteToFile` is proved against `Latex.Document`, and `Latex.WriteBody` against `Latex.Body`. The lemmas state what those functions mean. The setters and the other state-changing methods state their new state outright, in terms of the old one.

## Model

| member | source | states |
|---|---|---|
| Songs.Builder | src/song.rs:31-36 | the builder has the title and no order, verses, chorus or bridge |
| Songs.AddVerse | src/song.rs:49-52 | the verse is appended to the verse list, which is created on the first call; nothing else changes |
| Songs.SetChorus | src/song.rs:54-57 | the chorus is set; nothing else changes |
| Songs.SetBridge | src/song.rs:59-62 | the bridge is set; nothing else changes |
| Songs.SetOrder | src/song.rs:64-67 | the order is set; nothing else changes |
| Songs.Build | src/song.rs:69-112 | Ok exactly when an order is set, each `c`/`b` has its stanza, verses exist and the order has at least as many `v` as there are verses; the song then holds the builder's fields; each failure yields the error of the first check that fails, in source order |
| Songs.VerseInequalityExamples | src/song.rs:94-103 | with three verses, `vv` fails with expected 2 and actual 3, while `vvv` and `vvvv` build |
| Songs.NoVerseAlwaysFails | src/song.rs:89-93 | a song built without verses fails with NotEnoughVerses(title, 1, 0), whatever its order, as long as the order names no chorus and no bridge |
| Text.CountZero | src/song.rs:95 | a character's count in a string is zero exactly when the character does not occur |
| Text.CountAppend | src/song.rs:95 | counting over a concatenation adds the counts of the two parts |
| Lib.Song.constructor | src/lib.rs:26-34 | a new song has the name, an empty order and no stanzas |
| Lib.Song.AddVerse | src/lib.rs:36-38 | the verse is appended; nothing else changes |
| Lib.Song.SetChorus | src/lib.rs:40-42 | the chorus is set; nothing else changes |
| Lib.Song.SetBridge | src/lib.rs:44-46 | the bridge is set; nothing else changes |
| Lib.Song.SetOrder | src/lib.rs:48-75 | Ok exactly when every `c`/`b` has its stanza and the order has at least as many `v` as there are verses; on Ok only the order changes; on Err nothing changes and the message is the one of the first failing check, with both counts written in decimal |
| Lib.OrderFits | src/lib.rs:48-75 | the condition `set_order` checks: every `c` needs a chorus, every `b` a bridge, and the order's `v` count must be at least the verse count |
| Lib.TooFewVerses | src/lib.rs:64-71 | the message for too few `v`, holding both counts in decimal |
| Lib.EmptyOrderFitsNoVerses | src/lib.rs:64-71 | an empty order is accepted by a song without verses |
| Parser.Display | src/parser/mod.rs:18-26 | each variant is shown by its name; Unknown shows `Unknown: ` and its string |
| Parser.ToLowercase | src/parser/mod.rs:33 | every character is lowered and the length is kept |
| Parser.LowerChar | src/parser/mod.rs:33 | the result is never a capital; a capital becomes the lower-case letter at the same position in the alphabet; anything else is kept |
| Parser.IsSeparator | src/parser/mod.rs:34 | a separator is a space, a dash or an underscore |
| Parser.Retain | src/parser/mod.rs:34 | drops spaces, dashes and underscores; the result is never longer than the input |
| Parser.Normalise | src/parser/mod.rs:33-34 | the matched string is the input lowercased and then stripped of separators, never longer than the input |
| Parser.Deserialize | src/parser/mod.rs:28-42 | a non-string is rejected; a string maps to VideoPsalm exactly when it normalises to `videopsalm`, to PlainText exactly when it normalises to `plaintext`, and otherwise to Unknown holding the normalised string |
| Parser.RetainMembers | src/parser/mod.rs:34 | the characters kept are exactly the input's characters that are not separators |
| Parser.NormalisedIsClean | src/parser/mod.rs:33-34 | a normalised string has no capital letter and no separator |
| Parser.LowercaseIdempotent | src/parser/mod.rs:33 | lowercasing twice equals lowercasing once |
| Parser.RetainOfLowercase | src/parser/mod.rs:33-34 | lowercasing and stripping separators commute |
| Parser.RetainIdempotent | src/parser/mod.rs:34 | stripping separators twice equals stripping once |
| Parser.NormaliseIdempotent | src/parser/mod.rs:33-34 | normalising an already normalised string changes nothing |
| Parser.RetainKeeps | src/parser/mod.rs:34 | a string without separators is kept whole |
| Parser.RetainAppend | src/parser/mod.rs:34 | stripping distributes over concatenation |
| Parser.RetainJoins | src/parser/mod.rs:34 | one separator between two clean words is removed and the words are joined |
| Parser.RecognisedSpellings | src/parser/mod.rs:36-40 | `Video Psalm`, `video-psalm` and `PLAIN_TEXT` decode to the known parsers |
| Parser.DisplayReadsBack | src/parser/mod.rs:18-42 | decoding the displayed name of VideoPsalm or PlainText gives back the same variant |
| PlainText.TakeUntil | src/parser/plain_text.rs:92 | succeeds exactly when the pattern occurs; the value is the input before the first occurrence and the rest starts at it |
| PlainText.Tag | src/parser/plain_text.rs:67 | succeeds exactly when the input starts with the pattern, which it consumes |
| PlainText.Take1 | src/parser/plain_text.rs:78 | succeeds exactly on a non-empty input, consuming its first character |
| PlainText.MatchName | src/parser/plain_text.rs:65-69 | succeeds exactly when a blank line follows a first line; the name is that first line, and the rest of the input follows the blank line |
| PlainText.StartTag | src/parser/plain_text.rs:72-74 | succeeds exactly on an input starting with `#`, which it consumes |
| PlainText.IdentifyTag | src/parser/plain_text.rs:77-88 | succeeds exactly on `c` or `b` followed by a newline, yielding Chorus or Bridge and consuming both characters |
| PlainText.MatchBlock | src/parser/plain_text.rs:91-99 | after `take_until` succeeds, the `tag` unwrapped at line 94 always matches; the result is split at the first blank line, or everything is the stanza when there is none; the rest is shorter than a non-empty input |
| PlainText.NextStanza | src/parser/plain_text.rs:30-42 | an untagged input is one verse block; a `#` input fails exactly when no valid tag follows, and the error is then always InvalidTag; a `#` input that succeeds is Chorus for `#c` and Bridge for `#b`, with the stanza read as a block after the three-character tag line; on success the rest is shorter than the input |
| PlainText.Add | src/parser/plain_text.rs:43-56 | a verse is appended to the verses, a chorus or bridge replaces the previous one, every other stanza field is kept, and the order gains `v`, `c` or `b` at its end |
| PlainText.Stanzas | src/parser/plain_text.rs:29-58 | the stanza loop as a function: each stanza is stored until the input is empty, and the first invalid tag stops it |
| PlainText.Parsed | src/parser/plain_text.rs:13-62 | the whole parse as a function: the title, then the stanza loop, giving the song value or the first error |
| PlainText.AddTracks | src/parser/plain_text.rs:43-56 | storing one stanza keeps the order consistent with the stored stanzas |
| PlainText.StanzasTrack | src/parser/plain_text.rs:29-58 | the whole stanza loop keeps the order consistent with the stored stanzas |
| PlainText.ParsedTracks | src/parser/plain_text.rs:13-62 | a parsed song has exactly one `v` per verse, a `c` exactly when it has a chorus and a `b` exactly when it has a bridge |
| PlainText.SetOrderAcceptsParsed | src/parser/plain_text.rs:60 | `set_order` accepts the order that `parse` built, so the unwrap at line 60 cannot fail |
| PlainText.StanzasFailOnTag | src/parser/plain_text.rs:29-58 | the stanza loop can fail only with InvalidTag |
| PlainText.ParsedErrors | src/parser/plain_text.rs:14-23 | `parse` reports an invalid title exactly when `match_name` fails; every other failure is an invalid tag |
| PlainText.TagLinesAccepted | src/parser/plain_text.rs:31-40 | a `#c` line gives the chorus and a `#b` line the bridge, each read as a block from the next line on |
| PlainText.VerseTagRejected | src/parser/plain_text.rs:77-88 | a block opened as `#v` stops the parse with InvalidTag |
| PlainText.Parse | src/parser/plain_text.rs:13-62 | the loop builds a fresh `Song` whose fields are those of `Parsed`, and it fails exactly when `Parsed` fails, with the same error |
| PlainText.MatchBlockAt | src/parser/plain_text.rs:91-99 | when the first blank line in the input starts at position i, the block is the input before i and the rest follows the blank line |
| PlainText.NoBreakNoBlank | src/parser/plain_text.rs:92 | a prefix without line breaks holds no blank line |
| PlainText.StanzasStep | src/parser/plain_text.rs:29-58 | one loop iteration: a successful stanza is stored and the loop continues on the rest |
| PlainText.ParsedFrom | src/parser/plain_text.rs:13-62 | a parsed title followed by a successful stanza loop gives the song made from them |
| PlainText.ExampleTitle | src/parser/plain_text.rs:65-69 | the title line of a sample text is read and the rest follows the blank line |
| PlainText.ExampleVerse | src/parser/plain_text.rs:30-42 | an untagged block of the sample is a verse |
| PlainText.ExampleChorusBlock | src/parser/plain_text.rs:91-99 | the final block of the sample is read up to its blank line |
| PlainText.ExampleChorus | src/parser/plain_text.rs:30-42 | a `#c` block of the sample is the chorus |
| PlainText.WorkedStanzas | src/parser/plain_text.rs:29-58 | the sample's stanzas are one verse and a chorus, with order `vc` |
| PlainText.WorkedExample | src/parser/plain_text.rs:13-62 | the sample parses to the song with title `Title`, order `vc`, one verse and the chorus |
| VideoPsalm.Feed | src/parser/video_psalm.rs:61-82 | one stanza: untagged is a verse, tag 1 the chorus and tag 3 the bridge, each adding its letter; every other tag changes nothing |
| VideoPsalm.FeedAll | src/parser/video_psalm.rs:60-83 | the stanzas of one record, fed in order |
| VideoPsalm.SongFrom | src/parser/video_psalm.rs:56-85 | one record: the fed builder with its order set, then `build` |
| VideoPsalm.AllSongs | src/parser/video_psalm.rs:54-88 | the songs of all records in order, or the first build error |
| VideoPsalm.Parse | src/parser/video_psalm.rs:47-89 | the nested loops return the result of the specification `AllSongs` on the decoded records |
| VideoPsalm.FeedAllOrder | src/parser/video_psalm.rs:60-83 | the order gains `v`, `c` or `b` for each untagged, tag-1 or tag-3 stanza, in record order; tag 6 and other tags add nothing |
| VideoPsalm.FeedAllVerses | src/parser/video_psalm.rs:62-65 | the verses are the untagged stanzas' texts in order, and a verse list exists only when there was an untagged stanza |
| VideoPsalm.FeedAllStanzas | src/parser/video_psalm.rs:66-72 | the chorus and bridge are the last stanza with tag 1 or 3, if any; title and order are untouched inside the loop |
| VideoPsalm.OrderCountsVerses | src/parser/video_psalm.rs:62-65 | the order has one `v` per collected verse |
| VideoPsalm.OrderNamesTags | src/parser/video_psalm.rs:66-72 | the order has a `c` exactly when a tag-1 stanza exists and a `b` exactly when a tag-3 stanza exists |
| VideoPsalm.VersesFromUntagged | src/parser/video_psalm.rs:61-65 | verses are collected exactly when some stanza has no tag |
| VideoPsalm.SongFromSpec | src/parser/video_psalm.rs:55-86 | a record builds exactly when some stanza is untagged, to the song with the classified order, verses, chorus and bridge; otherwise it fails with NotEnoughVerses(title, 1, 0) |
| VideoPsalm.AllSongsOk | src/parser/video_psalm.rs:54-88 | the result is Ok exactly when every record builds, and then it holds one song per record, in order |
| VideoPsalm.AllSongsErr | src/parser/video_psalm.rs:85 | an error comes from the first record that does not build |
| VideoPsalm.RepeatedChorus | src/parser/video_psalm.rs:66-69 | two tag-1 stanzas give order `vcc`, and the second text is the chorus |
| Latex.PackageFrom | src/latex.rs:15-34 | the first argument is the name; options, when present, are non-empty and are the remaining arguments |
| Latex.PackageRoundTrip | src/latex.rs:15-34 | a package whose options, if present, are non-empty is rebuilt from its argument list |
| Latex.PackageArgsRoundTrip | src/latex.rs:15-34 | the first argument is the name; the options are absent exactly when there is only one argument; the arguments come back unchanged |
| Latex.Then | src/latex.rs:101-328 | writing stops at the first failure; otherwise the lines of the two parts follow each other |
| Latex.ThenAssoc | src/latex.rs:101-328 | sequencing writes is associative |
| Latex.LinesThen | src/latex.rs:101-328 | two runs of plain lines written one after the other equal one run of their concatenation |
| Latex.PackageLines | src/latex.rs:124-130 | one `\usepackage` line per package, in order |
| Latex.ClassLine | src/latex.rs:106-111 | `\documentclass[options joined by ", "]{class}` |
| Latex.VersionLine | src/latex.rs:113-119 | `\def\ssver{a.b.c}` with the three version numbers in decimal |
| Latex.Head | src/latex.rs:105-123 | the class line, a blank line, the version line, a blank line and the packages heading |
| Latex.DefaultPackages | src/latex.rs:72-83 | the ten default packages, each built from its argument list, in the constructor's order |
| Latex.PackageLine | src/latex.rs:125-129 | `\usepackage`, the options in brackets when present, then the name in braces |
| Latex.PackageLinesAppend | src/latex.rs:88-90 | a package added last gives one more line at the end |
| Latex.PackageLineOptions | src/latex.rs:125-129 | the line's option bracket appears exactly when the package has options; without options the line is `\usepackage{name}` |
| Latex.Boilerplate | src/latex.rs:132-256 | the fixed block has its fixed number of lines |
| Latex.BoilerplateFormats | src/latex.rs:132-256 | only the three stanza-format lines depend on the formats |
| Latex.ExtraLines | src/latex.rs:259-263 | a blank line, the section heading and the extra text, only when extra text is set |
| Latex.Opening | src/latex.rs:265-281 | the document heading, `\begin{document}`, the title page with the cover, the index and the opening of the two columns |
| Latex.Preamble | src/latex.rs:105-281 | head, package lines, fixed block, extra section and opening, in that order |
| Latex.Block | src/latex.rs:295-311 | a stanza block: its command line, its text and `\end` |
| Latex.SongHeader | src/latex.rs:285-287 | a blank line, the song's comment line and `\begin{song}{name}` |
| Latex.Closing | src/latex.rs:321-323 | a blank line, `\end{multicols}` and `\end{document}` |
| Latex.Body | src/latex.rs:290-316 | the order loop: `v` writes the verse under the cursor and advances it, or panics past the last verse; `c` and `b` write their stanza if present; other letters write nothing |
| Latex.SongEmission | src/latex.rs:285-317 | one song: its header, its body and `\end{song}` |
| Latex.SongsEmission | src/latex.rs:284-318 | the songs in insertion order, stopping at the first panic |
| Latex.Document | src/latex.rs:101-328 | preamble, songs and closing lines |
| Latex.BodyFailure | src/latex.rs:290-316 | the song body fails exactly when the order has more `v` than there are verses left, and the index is then the verse count |
| Latex.CountFirst | src/latex.rs:290-298 | the verse cursor before a letter is the count of `v` before it |
| Latex.BlocksTail | src/latex.rs:291-316 | after the first letter, the rest of the order is written with the cursor moved past it |
| Latex.BodyByPosition | src/latex.rs:290-316 | when there are enough verses, the body is, letter by letter, the block for that letter, with the verse chosen by the number of `v` before it; a `c` or `b` without its stanza writes nothing |
| Latex.SongWrapped | src/latex.rs:284-318 | a song is written completely exactly when it renders; it is then opened by its header and closed by `\end{song}`; otherwise the run stops at the verse index equal to the verse count |
| Latex.BodyEndsAtVerse | src/latex.rs:293-296 | a failing body has already written the `\verse` line when it stops |
| Latex.EachSong | src/latex.rs:284-318 | one block of lines per song, in order |
| Latex.SongsRender | src/latex.rs:284-318 | all songs are written exactly when each of them renders |
| Latex.SongsInOrder | src/latex.rs:284-318 | a complete run writes the songs' blocks one after another |
| Latex.SongsStopAt | src/latex.rs:284-318 | when song k is the first that does not render, the run fails with its failure, after the full blocks of songs 0 to k-1 and then song k's lines up to the failure |
| Latex.FirstFailing | src/latex.rs:284-318 | the index of the first song that does not render, every song before it rendering |
| Latex.SongsStopAtFirst | src/latex.rs:284-318 | a failing run stops at the first song that does not render, with that song's failure; the lines are the full blocks of all songs before it, then that song's lines up to the failure |
| Latex.PreambleOpensColumns | src/latex.rs:280-281 | the preamble ends by opening the two-column environment |
| Latex.DocumentShape | src/latex.rs:101-328 | the document completes exactly when every song renders; it is preamble, songs and closing, and it always starts with the preamble |
| Latex.PreambleExtraSection | src/latex.rs:259-263 | extra preamble text adds its own section of three lines after the fixed block and changes nothing else |
| Latex.Latex.constructor | src/latex.rs:53-86 | the defaults: `article` with three options, version 1.0.0, the ten default packages in order, the three formats, the cover, no extra text and no songs |
| Latex.Latex.UsePackage | src/latex.rs:88-90 | the package is appended; nothing else changes |
| Latex.Latex.UsePackageStr | src/latex.rs:93-99 | an empty argument list fails with its message and changes nothing; otherwise the package built from the arguments is appended |
| Latex.Latex.SetDocClass | src/latex.rs:330-332 | only the document class changes |
| Latex.Latex.SetDocOpts | src/latex.rs:334-336 | only the document options change |
| Latex.Latex.SetVersion | src/latex.rs:338-340 | only the version changes |
| Latex.Latex.SetVerseFmt | src/latex.rs:342-344 | only the verse format changes |
| Latex.Latex.SetChorusFmt | src/latex.rs:346-348 | only the chorus format changes |
| Latex.Latex.SetBridgeFmt | src/latex.rs:350-352 | only the bridge format changes |
| Latex.Latex.SetCover | src/latex.rs:354-356 | only the cover changes |
| Latex.Latex.SetPreambleExtra | src/latex.rs:358-360 | only the extra preamble text changes |
| Latex.Latex.AddSong | src/latex.rs:362-364 | the song's current fields are appended to the song list; nothing else changes |
| Latex.Latex.WritePackages | src/latex.rs:124-130 | the package loop writes the package lines |
| Latex.Latex.WritePreamble | src/latex.rs:105-281 | the writes before the songs are the preamble of the current state |
| Latex.Latex.WriteToFile | src/latex.rs:101-328 | the lines written, and where writing stops, are those of `Document` on the current state |
| Latex.WriteBody | src/latex.rs:290-316 | the stanza loop with its verse cursor writes the body given by the specification, stopping at the same place |
| Latex.NewDocumentCompletes | src/latex.rs:53-86 | a freshly built document without songs is written completely |
| Latex.AcceptedOrderMayPanic | src/latex.rs:289-296 | the comment at line 289 holds only in one direction: `set_order` accepts `vv` for a song with one verse, yet writing its body stops at verse index 1 of 1 |
| Pipeline.ParsedSongRenders | src/parser/plain_text.rs:13-62 | a song produced by the plain-text parser is always written completely |
| Pipeline.ParsedDocumentCompletes | src/latex.rs:284-318 | a document whose songs all come from the plain-text parser is written completely |

## Left out

- JSON decoding is left out. This covers `serde_json` and the `VS` wrapper type with its byte-order-mark handling. `VideoPsalm.Parse` starts from the decoded records, so the JSON error variant of `ParseError` is absent.
- The file itself is left out. This means `File`, `BufWriter`, flushing and `io::Error` propagation. Writing is a sequence of output lines, and each `writeln!` is one line. Consecutive `write!` calls that end in one `writeln!` form one line. The `file` field of `Latex` is absent.
- Logging is omitted, because it does not affect results: the `trace!`, `info!` and `warn!` calls, and the coloured message strings of the plain-text parser.
- PlainText.Parse: its errors are only the variants InvalidTitle and InvalidTag. The source's formatted, coloured message text is not reproduced.
- Parser.ToLowercase: lowers only ASCII capitals. Rust's Unicode lowercasing is not modelled.
- Latex.PackageFrom requires a non-empty argument list. The source panics through `expect` in that case.
- The verse-cursor panic at `s.verses[cur_verse]` is modelled as an `Emission` whose failure is `VerseOutOfBounds`. Unwinding is not modelled.
- `usize` overflow of the verse cursor and of the counts is not modelled, because integers are unbounded.
- `add_song` moves the song into the document. The model stores a snapshot of the song's fields, so later changes to the `Lib.Song` object do not reach the document.
- Imports in the source do not match their calls:
  - `src/parser/plain_text.rs` imports `crate::song::Song`, but it calls `Song::new`, `add_verse` and a checking `set_order`, which are the API of `src/lib.rs`. The model follows the calls.
  - `src/parser/video_psalm.rs` imports `crate::Song`, but it uses `Song::builder`. The model follows `src/song.rs`.
- The following are not part of this model: `src/main.rs`, `src/config.rs`, `src/error.rs`, `src/errors.rs`, `src/parser.rs` and the programs under `src/bin/`.
- The `Error` and `Display` implementations of `SongError` are left out. Only the variants and their fields are modelled.
