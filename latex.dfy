/**
 * The LaTeX writer of src/latex.rs. A `Latex` value collects the document
 * class, the packages, the stanza formats, the cover, extra preamble text
 * and the songs; `write_to_file` emits the document line by line.
 *
 * The output stream is a sequence of lines, one per `writeln!` (a line may
 * itself contain line breaks when the text written into it does). The
 * `verses[cur_verse]` index can panic: an `Emission` records the lines
 * written before that happens and the failure.
 */
module Latex {
  import opened Wrappers
  import opened Text
  import Lib

  /** Rust's `u8`. */
  newtype u8 = x: int | 0 <= x < 256

  /** A package: its name and, when any were given, its options. */
  datatype Package = Package(name: string, opts: Option<seq<string>>)

  /** `Package::from(args)`: the first argument is the name, any further ones are the options. */
  function PackageFrom(args: seq<string>): (r: Package)
    requires |args| > 0  // `expect("Must give package name!")`
    ensures r.name == args[0]
    ensures r.opts.Some? ==> r.opts.value != [] && [r.name] + r.opts.value == args
  {
    Package(args[0], if |args| > 1 then Some(args[1..]) else None)
  }

  /** The argument list that names a package: the name, then the options. */
  function PackageArgs(p: Package): seq<string> {
    [p.name] + (if p.opts.Some? then p.opts.value else [])
  }

  /** `Package::from` takes apart exactly the list that names a package with no empty option list. */
  lemma PackageRoundTrip(p: Package)
    requires p.opts.Some? ==> p.opts.value != []
    ensures |PackageArgs(p)| > 0 && PackageFrom(PackageArgs(p)) == p
  {
    if p.opts.Some? {
      assert PackageArgs(p)[1..] == p.opts.value;
    }
  }

  /** ... and every argument list comes back from the package it makes; the options are absent exactly when only a name is given. */
  lemma PackageArgsRoundTrip(args: seq<string>)
    requires |args| > 0
    ensures PackageArgs(PackageFrom(args)) == args
    ensures PackageFrom(args).name == args[0]
    ensures PackageFrom(args).opts.None? <==> |args| == 1
  {
    if |args| == 1 {
      assert [args[0]] + [] == args;
    } else {
      assert [args[0]] + args[1..] == args;
    }
  }

  /** The panic of `s.verses[cur_verse]`, in the terms of the `VerseOutOfBounds` error. */
  datatype LatexError = VerseOutOfBounds(index: nat, size: nat)

  /** What was written, and whether writing stopped early. */
  datatype Emission = Emission(lines: seq<string>, failure: Option<LatexError>)

  /** Lines written without failing. */
  function Lines(lines: seq<string>): Emission {
    Emission(lines, None)
  }

  /** `e`, then — unless `e` stopped early — `rest`. */
  function Then(e: Emission, rest: Emission): (r: Emission)
    ensures r.failure.Some? <==> e.failure.Some? || rest.failure.Some?
    ensures e.failure.Some? ==> r == e
    ensures e.failure.None? ==> |r.lines| == |e.lines| + |rest.lines|
    ensures e.failure.None? ==> r.lines[..|e.lines|] == e.lines && r.lines[|e.lines|..] == rest.lines
  {
    if e.failure.Some? then e else Emission(e.lines + rest.lines, rest.failure)
  }

  lemma ThenAssoc(a: Emission, b: Emission, c: Emission)
    ensures Then(Then(a, b), c) == Then(a, Then(b, c))
  {
    if a.failure.None? && b.failure.None? {
      assert (a.lines + b.lines) + c.lines == a.lines + (b.lines + c.lines);
    }
  }

  lemma LinesThen(x: seq<string>, y: seq<string>, e: Emission)
    ensures Then(Lines(x), Then(Lines(y), e)) == Then(Lines(x + y), e)
  {
    assert (x + y) + e.lines == x + (y + e.lines);
  }

  /** The fields of a `Latex` at one moment (the output file aside). */
  datatype LatexValue = LatexValue(
    docClass: string,
    docOpts: seq<string>,
    version: (u8, u8, u8),
    packages: seq<Package>,
    verseFmt: string,
    chorusFmt: string,
    bridgeFmt: string,
    cover: string,
    preambleExtra: Option<string>,
    songs: seq<Lib.SongValue>)

  function ClassLine(docOpts: seq<string>, docClass: string): string {
    @"\documentclass[" + Join(docOpts, ", ") + "]{" + docClass + "}"
  }

  function VersionLine(version: (u8, u8, u8)): string {
    @"\def\ssver{" + NatToString(version.0 as nat) + "." + NatToString(version.1 as nat) + "."
      + NatToString(version.2 as nat) + "}"
  }

  /** The lines before the packages. */
  function Head(c: LatexValue): seq<string> {
    [ClassLine(c.docOpts, c.docClass), "", VersionLine(c.version), "", "% ====   Packages   ===="]
  }

  /** The `\usepackage` line of one package; options appear in brackets only when present. */
  function PackageLine(p: Package): string {
    @"\usepackage" + (if p.opts.Some? then "[" + Join(p.opts.value, ", ") + "]" else "") + "{" + p.name + "}"
  }

  function PackageLines(packages: seq<Package>): (r: seq<string>)
    ensures |r| == |packages|
    ensures forall i :: 0 <= i < |packages| ==> r[i] == PackageLine(packages[i])
  {
    seq(|packages|, i requires 0 <= i < |packages| => PackageLine(packages[i]))
  }

  lemma PackageLinesAppend(packages: seq<Package>, p: Package)
    ensures PackageLines(packages + [p]) == PackageLines(packages) + [PackageLine(p)]
  {
  }

  /** `\usepackage[` starts the line exactly when the package has options. */
  lemma PackageLineOptions(p: Package)
    ensures |PackageLine(p)| > 11
    ensures PackageLine(p)[..12] == @"\usepackage[" <==> p.opts.Some?
    ensures p.opts.None? ==> PackageLine(p) == @"\usepackage{" + p.name + "}"
  {
    var line := PackageLine(p);
    if p.opts.Some? {
      assert line == @"\usepackage" + ("[" + Join(p.opts.value, ", ") + "]" + "{" + p.name + "}");
      assert line[11] == '[';
    } else {
      assert line == @"\usepackage" + ("{" + p.name + "}");
      assert line[11] == '{';
    }
    assert line[..12][11] == line[11];
  }

  /**
   * The fixed part of the preamble, line by line: index, counters, footer,
   * the verse, chorus and bridge commands (which carry the three formats),
   * the song and psalm environments and the utility commands.
   */
  function BoilerplateLine(i: nat, verseFmt: string, chorusFmt: string, bridgeFmt: string): string {
    match i
    case 0 => ""
    case 1 => "% ====   Index   ===="
    case 2 => @"\makeindex"
    case 3 => ""
    case 4 => "% ====   Counters   ===="
    case 5 => @"\newtotcounter{songcount}"
    case 6 => @"\newtotcounter{psalmcount}"
    case 7 => @"\definecolor{title dark}{HTML}{7E73A7}"
    case 8 => ""
    case 9 => "% ====   Footer   ===="
    case 10 => @"\pagestyle{fancy}"
    case 11 => @"\fancyhf{}"
    case 12 => @"\cfoot{{\small\thepage} \\ v{\ssver}}"
    case 13 => @"\renewcommand{\headrulewidth}{0pt}"
    case 14 => ""
    case 15 => @"\makeatletter"
    case 16 => ""
    case 17 => "% ====   Verse   ===="
    case 18 => @"\renewcommand{\verse}{\@versei}"
    case 19 => @"\newcommand{\@versei}{\@ifnextchar\end{\@verseend}{\@verseii}} % chktex 10"
    case 20 => @"\newcommand{\@verseii}[1]{" + verseFmt + @"#1\par\@versei}"
    case 21 => @"\newcommand{\@verseend}[1]{\vskip1em}"
    case 22 => ""
    case 23 => "% ====   Chorus   ===="
    case 24 => @"\newcommand{\chorus}{\@chorusi}"
    case 25 => @"\newcommand{\@chorusi}{\@ifnextchar\end{\@chorusend}{\@chorusii}} % chktex 10"
    case 26 => @"\newcommand{\@chorusii}[1]{" + chorusFmt + @"{#1}\par\@chorusi}"
    case 27 => @"\newcommand{\@chorusend}[1]{\vskip1em}"
    case 28 => ""
    case 29 => "% ====   Bridge   ===="
    case 30 => @"\newcommand{\bridge}{\@bridgei}"
    case 31 => @"\newcommand{\@bridgei}{\@ifnextchar\end{\@bridgeend}{\@bridgeii}} % chktex 10"
    case 32 => @"\newcommand{\@bridgeii}[1]{" + bridgeFmt + @"{#1}\par\@bridgei}"
    case 33 => @"\newcommand{\@bridgeend}[1]{\vskip1em}"
    case 34 => ""
    case 35 => @"\makeatother"
    case 36 => ""
    case 37 => "% ====   Song   ===="
    case 38 => @"\newenvironment{song}[1]%"
    case 39 => @"{%"
    case 40 => @"    \begin{minipage}[t]{0.94\columnwidth}{\stepcounter{songcount}\textbf{\large #1}\index{#1}}%"
    case 41 => @"        \par\vspace{2pt}"
    case 42 => @"}%"
    case 43 => @"{%"
    case 44 => @"    \end{minipage}%"
    case 45 => @"    \vspace{2em}%"
    case 46 => @"}"
    case 47 => ""
    case 48 => "% ====   Psalm   ===="
    case 49 => @"\newenvironment{psalm}[2]%"
    case 50 => @"{%"
    case 51 => @"    \begin{minipage}[t]{0.94\columnwidth}%"
    case 52 => @"        \begin{center}{\stepcounter{psalmcount}\textbf{\large #1}\index{#1}{\normalsize #2}}%"
    case 53 => @"            \par\vspace{2pt}"
    case 54 => @"}%"
    case 55 => @"{%"
    case 56 => @"        \end{center}%"
    case 57 => @"    \end{minipage}%"
    case 58 => @"    \vspace{2em}%"
    case 59 => @"}%"
    case 60 => ""
    case 61 => "% ====   Utitilty Commands   ===="
    case 62 => @"\newcommand{\extra}[1]{\textit{\normalsize (#1)}}"
    case 63 => @"\renewcommand{\sp}{\textit{\normalsize (Sing Psalms)}}"
    case 64 => @"\newcommand{\tr}{\textit{\normalsize (Scottish Psalter)}}"
    case 65 => @"\newcommand{\LORD}{\textsc{Lord}}"
    case 66 => @"\newcommand{\cp}[1]{{\tiny\ttfamily#1}}"
    case _ => ""
  }

  const BoilerplateLength := 67

  function Boilerplate(verseFmt: string, chorusFmt: string, bridgeFmt: string): (r: seq<string>)
    ensures |r| == BoilerplateLength
  {
    seq(BoilerplateLength, i requires 0 <= i < BoilerplateLength => BoilerplateLine(i, verseFmt, chorusFmt, bridgeFmt))
  }

  /**
   * The formats show up only in the command that sets their stanza's text
   * (lines 20, 26 and 32); every other boilerplate line is fixed.
   */
  lemma BoilerplateFormats(verseFmt: string, chorusFmt: string, bridgeFmt: string,
                           verseFmt': string, chorusFmt': string, bridgeFmt': string)
    ensures var b, b' := Boilerplate(verseFmt, chorusFmt, bridgeFmt), Boilerplate(verseFmt', chorusFmt', bridgeFmt');
      && (forall i :: 0 <= i < BoilerplateLength && i != 20 && i != 26 && i != 32 ==> b[i] == b'[i])
      && b[20] == @"\newcommand{\@verseii}[1]{" + verseFmt + @"#1\par\@versei}"
      && b[26] == @"\newcommand{\@chorusii}[1]{" + chorusFmt + @"{#1}\par\@chorusi}"
      && b[32] == @"\newcommand{\@bridgeii}[1]{" + bridgeFmt + @"{#1}\par\@bridgei}"
  {
  }

  /** The extra preamble section, present only when there is extra text. */
  function ExtraLines(preambleExtra: Option<string>): seq<string> {
    if preambleExtra.Some? then ["", "% ====   Rest of Preamble   ====", preambleExtra.value] else []
  }

  /** The start of the document: the title page with the cover, the index, and the two columns. */
  function Opening(cover: string): seq<string> {
    [ "",
      "% ====   Document   ====",
      @"\begin{document}",
      @"\sffamily",
      "",
      @"\begin{titlepage}",
      cover,
      @"\end{titlepage}",
      "",
      @"\setcounter{page}{2}  % Make title page, page 1",
      @"\printindex",
      @"\begin{multicols}{2}",
      @"\raggedcolumns{}" ]
  }

  /** Everything written before the first song. */
  function Preamble(c: LatexValue): seq<string> {
    Head(c) + PackageLines(c.packages) + Boilerplate(c.verseFmt, c.chorusFmt, c.bridgeFmt)
      + ExtraLines(c.preambleExtra) + Opening(c.cover)
  }

  /** A stanza block: its opening command, its text and `\end`. */
  function Block(command: string, text: string): seq<string> {
    [command, text, @"    \end"]
  }

  /**
   * The inner loop over the order from `order` on, with the verse cursor at
   * `cur`: a `v` writes the current verse and advances the cursor, and panics
   * once the cursor has run past the verses; `c` and `b` write their stanza
   * when the song has one; any other letter writes nothing.
   */
  function Body(order: string, s: Lib.SongValue, cur: nat): Emission
    decreases |order|
  {
    if order == [] then Lines([])
    else if order[0] == 'v' then
      if cur < |s.verses| then Then(Lines(Block(@"    \verse", s.verses[cur])), Body(order[1..], s, cur + 1))
      else Emission([@"    \verse"], Some(VerseOutOfBounds(cur, |s.verses|)))
    else if order[0] == 'c' then
      Then(Lines(if s.chorus.Some? then Block(@"    \chorus", s.chorus.value) else []), Body(order[1..], s, cur))
    else if order[0] == 'b' then
      Then(Lines(if s.bridge.Some? then Block(@"    \bridge", s.bridge.value) else []), Body(order[1..], s, cur))
    else Body(order[1..], s, cur)
  }

  /** The comment and `\begin{song}` line that open a song. */
  function SongHeader(name: string): seq<string> {
    ["", "% ====   " + name + "   ====", @"\begin{song}{" + name + "}"]
  }

  const SongEnd := @"\end{song}"

  /** One song: header, body, `\end{song}`. */
  function SongEmission(s: Lib.SongValue): Emission {
    Then(Lines(SongHeader(s.name)), Then(Body(s.order, s, 0), Lines([SongEnd])))
  }

  /** The songs in insertion order, stopping at the first panic. */
  function SongsEmission(songs: seq<Lib.SongValue>): Emission
    decreases |songs|
  {
    if songs == [] then Lines([]) else Then(SongEmission(songs[0]), SongsEmission(songs[1..]))
  }

  const Closing := ["", @"\end{multicols}", @"\end{document}"]

  /** What `write_to_file` writes for a `Latex` holding `c`. */
  function Document(c: LatexValue): Emission {
    Then(Lines(Preamble(c)), Then(SongsEmission(c.songs), Lines(Closing)))
  }

  // What the body writes.

  /**
   * Writing a body from cursor `cur` (never past the verses) panics exactly
   * when the order asks for more verses than remain; the cursor then stands
   * one past the last verse. Safety needs at most as many `v` as verses, the
   * opposite of what `set_order` checks.
   */
  lemma {:induction false} BodyFailure(order: string, s: Lib.SongValue, cur: nat)
    requires cur <= |s.verses|
    ensures Body(order, s, cur).failure.Some? <==> cur + Count(order, 'v') > |s.verses|
    ensures Body(order, s, cur).failure.Some? ==>
      Body(order, s, cur).failure.value == VerseOutOfBounds(|s.verses|, |s.verses|)
    decreases |order|
  {
    if order != [] {
      if order[0] == 'v' {
        if cur < |s.verses| {
          BodyFailure(order[1..], s, cur + 1);
        }
      } else {
        BodyFailure(order[1..], s, cur);
      }
    }
  }

  /** The lines one letter of the order stands for, with the `k`-th verse under the cursor. */
  function StanzaLines(letter: char, s: Lib.SongValue, k: nat): seq<string> {
    if letter == 'v' then (if k < |s.verses| then Block(@"    \verse", s.verses[k]) else [@"    \verse"])
    else if letter == 'c' then (if s.chorus.Some? then Block(@"    \chorus", s.chorus.value) else [])
    else if letter == 'b' then (if s.bridge.Some? then Block(@"    \bridge", s.bridge.value) else [])
    else []
  }

  function Concat(blocks: seq<seq<string>>): seq<string> {
    if blocks == [] then [] else blocks[0] + Concat(blocks[1..])
  }

  /** The blocks of the letters of `order`, each with the verse cursor counting the `v` before it. */
  function Blocks(order: string, s: Lib.SongValue, cur: nat): seq<seq<string>> {
    seq(|order|, i requires 0 <= i < |order| => StanzaLines(order[i], s, cur + Count(order[..i], 'v')))
  }

  lemma CountFirst(order: string, i: nat)
    requires 0 <= i < |order|
    ensures Count(order[..i + 1], 'v') == (if order[0] == 'v' then 1 else 0) + Count(order[1..][..i], 'v')
  {
    assert order[..i + 1][1..] == order[1..][..i];
  }

  lemma BlocksTail(order: string, s: Lib.SongValue, cur: nat)
    requires order != []
    ensures Blocks(order, s, cur)[0] == StanzaLines(order[0], s, cur)
    ensures Blocks(order, s, cur)[1..] == Blocks(order[1..], s, cur + (if order[0] == 'v' then 1 else 0))
  {
    assert order[..0] == [];
    var next := cur + (if order[0] == 'v' then 1 else 0);
    forall i | 0 <= i < |order| - 1
      ensures Blocks(order, s, cur)[1..][i] == Blocks(order[1..], s, next)[i]
    {
      CountFirst(order, i);
    }
  }

  /**
   * When the verses suffice, the body is the letters' blocks in order: the
   * i-th `v` writes `\verse`, verse number i and `\end`; `c` and `b` write
   * the chorus or bridge when the song has one; other letters write nothing.
   */
  lemma {:induction false} BodyByPosition(order: string, s: Lib.SongValue, cur: nat)
    requires cur + Count(order, 'v') <= |s.verses|
    ensures Body(order, s, cur) == Lines(Concat(Blocks(order, s, cur)))
    decreases |order|
  {
    if order != [] {
      BlocksTail(order, s, cur);
      if order[0] == 'v' {
        BodyByPosition(order[1..], s, cur + 1);
      } else {
        BodyByPosition(order[1..], s, cur);
      }
    }
  }

  // What the songs and the document write.

  /** A song renders exactly when its order has no more `v` than it has verses. */
  predicate Renders(s: Lib.SongValue) {
    Count(s.order, 'v') <= |s.verses|
  }

  /**
   * A song that renders is wrapped in its header and `\end{song}`; one that
   * does not stops after its header and part of its body, at the `\verse`
   * line of the verse that does not exist.
   */
  lemma SongWrapped(s: Lib.SongValue)
    ensures SongEmission(s).failure.None? <==> Renders(s)
    ensures Renders(s) ==> SongEmission(s).lines == SongHeader(s.name) + Body(s.order, s, 0).lines + [SongEnd]
    ensures !Renders(s) ==> SongEmission(s).failure == Some(VerseOutOfBounds(|s.verses|, |s.verses|))
    ensures !Renders(s) ==>
      SongEmission(s).lines[..3] == SongHeader(s.name) && SongEmission(s).lines[|SongEmission(s).lines| - 1] == @"    \verse"
  {
    BodyFailure(s.order, s, 0);
    if !Renders(s) {
      BodyEndsAtVerse(s.order, s, 0);
    }
  }

  /** A body that panics has just written the `\verse` line. */
  lemma {:induction false} BodyEndsAtVerse(order: string, s: Lib.SongValue, cur: nat)
    requires Body(order, s, cur).failure.Some?
    ensures |Body(order, s, cur).lines| > 0
    ensures Body(order, s, cur).lines[|Body(order, s, cur).lines| - 1] == @"    \verse"
    decreases |order|
  {
    if order[0] == 'v' {
      if cur < |s.verses| {
        BodyEndsAtVerse(order[1..], s, cur + 1);
      }
    } else {
      BodyEndsAtVerse(order[1..], s, cur);
    }
  }

  /** The lines each song writes on its own, in insertion order. */
  function EachSong(songs: seq<Lib.SongValue>): (r: seq<seq<string>>)
    ensures |r| == |songs|
    ensures forall i :: 0 <= i < |songs| ==> r[i] == SongEmission(songs[i]).lines
  {
    seq(|songs|, i requires 0 <= i < |songs| => SongEmission(songs[i]).lines)
  }

  /** All songs are written exactly when each renders. */
  lemma {:induction false} SongsRender(songs: seq<Lib.SongValue>)
    ensures SongsEmission(songs).failure.None? <==> forall i :: 0 <= i < |songs| ==> Renders(songs[i])
    decreases |songs|
  {
    if songs != [] {
      SongWrapped(songs[0]);
      SongsRender(songs[1..]);
      assert forall i :: 0 < i < |songs| ==> songs[i] == songs[1..][i - 1];
    }
  }

  /** When they are, they are written one after another, in insertion order. */
  lemma {:induction false} SongsInOrder(songs: seq<Lib.SongValue>)
    requires SongsEmission(songs).failure.None?
    ensures SongsEmission(songs).lines == Concat(EachSong(songs))
    decreases |songs|
  {
    if songs != [] {
      SongsInOrder(songs[1..]);
      assert EachSong(songs)[1..] == EachSong(songs[1..]);
    }
  }

  /** Song `k` is the first of `songs` that does not render. */
  predicate FirstFailure(songs: seq<Lib.SongValue>, k: nat) {
    k < |songs| && !Renders(songs[k]) && forall j :: 0 <= j < k ==> Renders(songs[j])
  }

  /**
   * Writing stops at the first song that does not render: the songs before
   * it are written whole, and then that song up to its failure.
   */
  lemma {:induction false} SongsStopAt(songs: seq<Lib.SongValue>, k: nat)
    requires FirstFailure(songs, k)
    ensures SongsEmission(songs).failure == SongEmission(songs[k]).failure
    ensures SongsEmission(songs).lines == Concat(EachSong(songs[..k])) + SongEmission(songs[k]).lines
    decreases k
  {
    SongWrapped(songs[0]);
    if k == 0 {
      assert EachSong(songs[..0]) == [];
    } else {
      var tail := songs[1..];
      assert FirstFailure(tail, k - 1) by {
        assert forall j :: 0 <= j < k - 1 ==> tail[j] == songs[j + 1];
        assert tail[k - 1] == songs[k];
      }
      SongsStopAt(tail, k - 1);
      assert EachSong(songs[..k])[1..] == EachSong(tail[..k - 1]);
    }
  }

  /** The index of the first song that does not render. */
  function FirstFailing(songs: seq<Lib.SongValue>): (k: nat)
    requires exists i :: 0 <= i < |songs| && !Renders(songs[i])
    ensures FirstFailure(songs, k)
    decreases |songs|
  {
    if !Renders(songs[0]) then 0
    else
      assert exists i :: 0 <= i < |songs[1..]| && !Renders(songs[1..][i]) by {
        var i :| 0 <= i < |songs| && !Renders(songs[i]);
        assert songs[1..][i - 1] == songs[i];
      }
      var k := FirstFailing(songs[1..]);
      assert forall j :: 0 < j <= k + 1 ==> songs[j] == songs[1..][j - 1];
      k + 1
  }

  /** A run that fails stops at the first song that does not render, after every song before it. */
  lemma SongsStopAtFirst(songs: seq<Lib.SongValue>)
    requires SongsEmission(songs).failure.Some?
    ensures exists i: nat :: (&& FirstFailure(songs, i)
                              && SongsEmission(songs).failure == SongEmission(songs[i]).failure
                              && SongsEmission(songs).lines == Concat(EachSong(songs[..i])) + SongEmission(songs[i]).lines)
  {
    SongsRender(songs);
    var k := FirstFailing(songs);
    SongsStopAt(songs, k);
  }

  /** The preamble ends by opening the two columns that hold the songs. */
  lemma PreambleOpensColumns(c: LatexValue)
    ensures |Preamble(c)| >= 2 && Preamble(c)[|Preamble(c)| - 2] == @"\begin{multicols}{2}"
  {
    var rest := Head(c) + PackageLines(c.packages) + Boilerplate(c.verseFmt, c.chorusFmt, c.bridgeFmt)
      + ExtraLines(c.preambleExtra);
    assert Preamble(c) == rest + Opening(c.cover);
  }

  /**
   * The document is complete exactly when every song renders: the preamble,
   * the songs, and the closing of the columns and the document last. When a
   * song does not render, the preamble is still written and the closing is not.
   */
  lemma DocumentShape(c: LatexValue)
    ensures Document(c).failure.None? <==> forall i :: 0 <= i < |c.songs| ==> Renders(c.songs[i])
    ensures Document(c).failure.None? ==> Document(c).lines == Preamble(c) + SongsEmission(c.songs).lines + Closing
    ensures Document(c).failure.None? ==>
      Document(c).lines[|Document(c).lines| - 2..] == [@"\end{multicols}", @"\end{document}"]
    ensures Document(c).lines[..|Preamble(c)|] == Preamble(c)
  {
    SongsRender(c.songs);
    if Document(c).failure.None? {
      var lines := Document(c).lines;
      assert lines == Preamble(c) + (SongsEmission(c.songs).lines + Closing);
      assert lines[|lines| - 2..] == Closing[1..];
    }
  }

  /** Extra preamble text adds its section, and nothing else, just before the document starts. */
  lemma PreambleExtraSection(c: LatexValue, extra: string)
    ensures var without := Preamble(c.(preambleExtra := None));
      var k := |without| - |Opening(c.cover)|;
      0 <= k && Preamble(c.(preambleExtra := Some(extra)))
        == without[..k] + ["", "% ====   Rest of Preamble   ====", extra] + without[k..]
  {
    var base := Head(c) + PackageLines(c.packages) + Boilerplate(c.verseFmt, c.chorusFmt, c.bridgeFmt);
    var without := Preamble(c.(preambleExtra := None));
    assert without == base + Opening(c.cover);
    assert without[..|base|] == base && without[|base|..] == Opening(c.cover);
  }

  /** The packages `Latex::new` starts with, in this order. */
  function DefaultPackages(): seq<Package> {
    [ PackageFrom(["geometry", "left=1cm", "right=1cm", "top=1cm", "bottom=2cm"]),
      PackageFrom(["hyperref", "hyperindex"]),
      PackageFrom(["makeidx"]),
      PackageFrom(["pdfpages"]),
      PackageFrom(["fancyhdr"]),
      PackageFrom(["graphicx"]),
      PackageFrom(["adjustbox"]),
      PackageFrom(["multicol"]),
      PackageFrom(["totcount"]),
      PackageFrom(["xcolor"]) ]
  }

  const NoPackageName := "Must provide package name!"

  /** A LaTeX document being configured; the output file itself is not modelled. */
  class Latex {
    var docClass: string
    var docOpts: seq<string>
    var version: (u8, u8, u8)
    var packages: seq<Package>
    var verseFmt: string
    var chorusFmt: string
    var bridgeFmt: string
    var cover: string
    var preambleExtra: Option<string>
    var songs: seq<Lib.SongValue>

    function Snapshot(): LatexValue
      reads this
    {
      LatexValue(docClass, docOpts, version, packages, verseFmt, chorusFmt, bridgeFmt, cover, preambleExtra, songs)
    }

    /**
     * `Latex::new`: an `article` on a4paper, two-sided, with a title page;
     * version 1.0.0; the default formats and cover; no extra preamble, no
     * songs; and the ten default packages, each added by `use_package_str`.
     */
    constructor ()
      ensures Snapshot() == LatexValue("article", ["a4paper", "twoside", "titlepage"], (1, 0, 0), DefaultPackages(),
                                       "", @"\quad\textit", @"\textit", @"\includepdf{./titleimage.jpg}", None, [])
    {
      docClass := "article";
      docOpts := ["a4paper", "twoside", "titlepage"];
      version := (1, 0, 0);
      packages := [];
      verseFmt := "";
      chorusFmt := @"\quad\textit";
      bridgeFmt := @"\textit";
      cover := @"\includepdf{./titleimage.jpg}";
      preambleExtra := None;
      songs := [];
      new;
      var r := UsePackageStr(["geometry", "left=1cm", "right=1cm", "top=1cm", "bottom=2cm"]);
      r := UsePackageStr(["hyperref", "hyperindex"]);
      r := UsePackageStr(["makeidx"]);
      r := UsePackageStr(["pdfpages"]);
      r := UsePackageStr(["fancyhdr"]);
      r := UsePackageStr(["graphicx"]);
      r := UsePackageStr(["adjustbox"]);
      r := UsePackageStr(["multicol"]);
      r := UsePackageStr(["totcount"]);
      r := UsePackageStr(["xcolor"]);
    }

    /** `use_package`: appends the package. */
    method UsePackage(pkg: Package)
      modifies this
      ensures Snapshot() == old(Snapshot()).(packages := old(packages) + [pkg])
    {
      packages := packages + [pkg];
    }

    /** `use_package_str`: an empty list is refused and changes nothing; otherwise its package is appended. */
    method UsePackageStr(args: seq<string>) returns (r: Result<(), string>)
      modifies this
      ensures r.Err? <==> |args| == 0
      ensures r.Err? ==> r.error == NoPackageName && Snapshot() == old(Snapshot())
      ensures r.Ok? ==> Snapshot() == old(Snapshot()).(packages := old(packages) + [PackageFrom(args)])
    {
      if |args| == 0 {
        return Err(NoPackageName);
      }
      packages := packages + [PackageFrom(args)];
      return Ok(());
    }

    method SetDocClass(docClass: string)
      modifies this
      ensures Snapshot() == old(Snapshot()).(docClass := docClass)
    {
      this.docClass := docClass;
    }

    method SetDocOpts(docOpts: seq<string>)
      modifies this
      ensures Snapshot() == old(Snapshot()).(docOpts := docOpts)
    {
      this.docOpts := docOpts;
    }

    method SetVersion(version: (u8, u8, u8))
      modifies this
      ensures Snapshot() == old(Snapshot()).(version := version)
    {
      this.version := version;
    }

    method SetVerseFmt(verseFmt: string)
      modifies this
      ensures Snapshot() == old(Snapshot()).(verseFmt := verseFmt)
    {
      this.verseFmt := verseFmt;
    }

    method SetChorusFmt(chorusFmt: string)
      modifies this
      ensures Snapshot() == old(Snapshot()).(chorusFmt := chorusFmt)
    {
      this.chorusFmt := chorusFmt;
    }

    method SetBridgeFmt(bridgeFmt: string)
      modifies this
      ensures Snapshot() == old(Snapshot()).(bridgeFmt := bridgeFmt)
    {
      this.bridgeFmt := bridgeFmt;
    }

    method SetCover(cover: string)
      modifies this
      ensures Snapshot() == old(Snapshot()).(cover := cover)
    {
      this.cover := cover;
    }

    method SetPreambleExtra(preambleExtra: Option<string>)
      modifies this
      ensures Snapshot() == old(Snapshot()).(preambleExtra := preambleExtra)
    {
      this.preambleExtra := preambleExtra;
    }

    /** `add_song`: the song, as it stands, goes after those already added. */
    method AddSong(song: Lib.Song)
      modifies this
      ensures Snapshot() == old(Snapshot()).(songs := old(songs) + [song.Value()])
    {
      songs := songs + [song.Value()];
    }

    /** The package loop of `write_to_file`: one `\usepackage` line per package, in order. */
    method WritePackages() returns (lines: seq<string>)
      ensures lines == PackageLines(packages)
    {
      lines := [];
      for i := 0 to |packages|
        invariant lines == PackageLines(packages[..i])
      {
        PackageLinesAppend(packages[..i], packages[i]);
        assert packages[..i + 1] == packages[..i] + [packages[i]];
        lines := lines + [PackageLine(packages[i])];
      }
      assert packages[..|packages|] == packages;
    }

    /** The preamble part of `write_to_file`, up to the opening of the columns. */
    method WritePreamble() returns (lines: seq<string>)
      ensures lines == Preamble(Snapshot())
    {
      var packageLines := WritePackages();
      lines := [ClassLine(docOpts, docClass), "", VersionLine(version), "", "% ====   Packages   ===="]
        + packageLines + Boilerplate(verseFmt, chorusFmt, bridgeFmt) + ExtraLines(preambleExtra) + Opening(cover);
    }

    /**
     * `write_to_file`: the lines of the document, in the order they are
     * written, stopping where a verse index runs past the verses.
     */
    method WriteToFile() returns (e: Emission)
      ensures e == Document(Snapshot())
    {
      ghost var c := Snapshot();
      var lines := WritePreamble();
      assert songs[0..] == songs;
      for n := 0 to |songs|
        invariant Then(Lines(lines), Then(SongsEmission(songs[n..]), Lines(Closing))) == Document(c)
      {
        var s := songs[n];
        assert songs[n..][1..] == songs[n + 1..];
        ghost var later := Then(SongsEmission(songs[n + 1..]), Lines(Closing));
        ThenAssoc(SongEmission(s), SongsEmission(songs[n + 1..]), Lines(Closing));
        ThenAssoc(Body(s.order, s, 0), Lines([SongEnd]), later);
        ThenAssoc(Lines(SongHeader(s.name)), Then(Body(s.order, s, 0), Lines([SongEnd])), later);
        LinesThen(lines, SongHeader(s.name), Then(Body(s.order, s, 0), Then(Lines([SongEnd]), later)));
        lines := lines + SongHeader(s.name);
        var body := WriteBody(s);
        if body.failure.Some? {
          return Emission(lines + body.lines, body.failure);
        }
        LinesThen(lines, body.lines, Then(Lines([SongEnd]), later));
        LinesThen(lines + body.lines, [SongEnd], later);
        lines := lines + body.lines + [SongEnd];
      }
      assert songs[|songs|..] == [];
      lines := lines + Closing;
      assert lines + [] == lines;
      return Lines(lines);
    }
  }

  /**
   * The inner loop of `write_to_file` over one song's order, with the verse
   * cursor `cur_verse`.
   */
  method WriteBody(s: Lib.SongValue) returns (e: Emission)
    ensures e == Body(s.order, s, 0)
  {
    var lines := [];
    var cur: nat := 0;
    for k := 0 to |s.order|
      invariant Then(Lines(lines), Body(s.order[k..], s, cur)) == Body(s.order, s, 0)
    {
      assert s.order[k..][1..] == s.order[k + 1..];
      var letter := s.order[k];
      if letter == 'v' {
        if cur >= |s.verses| {
          // the index `s.verses[cur_verse]` panics
          return Emission(lines + [@"    \verse"], Some(VerseOutOfBounds(cur, |s.verses|)));
        }
        var block := Block(@"    \verse", s.verses[cur]);
        LinesThen(lines, block, Body(s.order[k + 1..], s, cur + 1));
        lines := lines + block;
        cur := cur + 1;
      } else if letter == 'c' {
        var block := if s.chorus.Some? then Block(@"    \chorus", s.chorus.value) else [];
        LinesThen(lines, block, Body(s.order[k + 1..], s, cur));
        lines := lines + block;
      } else if letter == 'b' {
        var block := if s.bridge.Some? then Block(@"    \bridge", s.bridge.value) else [];
        LinesThen(lines, block, Body(s.order[k + 1..], s, cur));
        lines := lines + block;
      }
    }
    assert s.order[|s.order|..] == [];
    assert lines + [] == lines;
    return Lines(lines);
  }

  /** A fresh `Latex` has no songs, so it always writes a complete document. */
  lemma NewDocumentCompletes()
    ensures Document(LatexValue("article", ["a4paper", "twoside", "titlepage"], (1, 0, 0), DefaultPackages(),
                                "", @"\quad\textit", @"\textit", @"\includepdf{./titleimage.jpg}", None, [])).failure.None?
  {
  }

  /**
   * `set_order` accepts more `v` than verses, but such a song does not
   * render: one verse with the order `vv` is accepted and then panics at the
   * second `v`.
   */
  lemma AcceptedOrderMayPanic(name: string, verse: string)
    ensures Lib.OrderFits("vv", None, None, 1)
    ensures Body("vv", Lib.SongValue(name, "vv", [verse], None, None), 0)
         == Emission([@"    \verse", verse, @"    \end", @"    \verse"], Some(VerseOutOfBounds(1, 1)))
  {
    assert Count("vv", 'v') == 2;
    var s := Lib.SongValue(name, "vv", [verse], None, None);
    assert "vv"[1..] == "v" && "v"[1..] == [];
    assert Body("v", s, 1) == Emission([@"    \verse"], Some(VerseOutOfBounds(1, 1)));
  }
}
