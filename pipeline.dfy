/**
 * How the plain-text front end and the LaTeX writer fit together: the order
 * `parse` builds has exactly one `v` per verse, so the verse index in
 * `write_to_file` stays in bounds for every song that came from plain text.
 */
module Pipeline {
  import opened Wrappers
  import PlainText
  import Latex

  /** A song parsed from plain text renders. */
  lemma ParsedSongRenders(input: string)
    requires PlainText.Parsed(input).Ok?
    ensures Latex.Renders(PlainText.Parsed(input).value)
    ensures Latex.SongEmission(PlainText.Parsed(input).value).failure.None?
  {
    PlainText.ParsedTracks(input);
    Latex.SongWrapped(PlainText.Parsed(input).value);
  }

  /** A document whose songs all came from plain text is written to the end. */
  lemma ParsedDocumentCompletes(c: Latex.LatexValue, inputs: seq<string>)
    requires |inputs| == |c.songs|
    requires forall i :: 0 <= i < |inputs| ==> PlainText.Parsed(inputs[i]) == Ok(c.songs[i])
    ensures Latex.Document(c).failure.None?
  {
    forall i | 0 <= i < |c.songs|
      ensures Latex.Renders(c.songs[i])
    {
      ParsedSongRenders(inputs[i]);
    }
    Latex.DocumentShape(c);
  }
}
