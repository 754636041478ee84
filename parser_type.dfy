/**
 * The parser selector of src/parser/mod.rs: a configured string is lowercased,
 * stripped of spaces, dashes and underscores, and matched against the two
 * known front ends.
 */
module Parser {
  import opened Wrappers

  datatype ParserType = VideoPsalm | PlainText | Unknown(s: string)

  /** What the deserializer offers: a string, or a value of another kind. */
  datatype Value = StringValue(s: string) | OtherValue

  /** The error `String::deserialize` raises on a value that is not a string. */
  datatype DecodeError = ExpectedString

  /** `fmt::Display for ParserType`. */
  function Display(p: ParserType): (r: string)
    ensures p.VideoPsalm? ==> r == "VideoPsalm"
    ensures p.PlainText? ==> r == "PlainText"
    ensures p.Unknown? ==> r == "Unknown: " + p.s
  {
    match p
    case VideoPsalm => "VideoPsalm"
    case PlainText => "PlainText"
    case Unknown(s) => "Unknown: " + s
  }

  predicate IsUpper(c: char) {
    'A' <= c <= 'Z'
  }

  function LowerChar(c: char): (r: char)
    ensures !IsUpper(r)
    ensures !IsUpper(c) ==> r == c
    ensures IsUpper(c) ==> r as int - 'a' as int == c as int - 'A' as int
  {
    if IsUpper(c) then (c as int - 'A' as int + 'a' as int) as char else c
  }

  /** `to_lowercase`, on ASCII letters. */
  function ToLowercase(s: string): (r: string)
    ensures |r| == |s|
    ensures forall i :: 0 <= i < |s| ==> r[i] == LowerChar(s[i])
  {
    seq(|s|, i requires 0 <= i < |s| => LowerChar(s[i]))
  }

  predicate IsSeparator(c: char) {
    c == ' ' || c == '-' || c == '_'
  }

  /** `retain` keeping every character but space, dash and underscore. */
  function Retain(s: string): (r: string)
    ensures |r| <= |s|
  {
    if s == [] then []
    else if IsSeparator(s[0]) then Retain(s[1..])
    else [s[0]] + Retain(s[1..])
  }

  /** The string that is matched: lowercased first, then stripped of separators. */
  function Normalise(s: string): (r: string)
    ensures |r| <= |s|
  {
    Retain(ToLowercase(s))
  }

  /** `Deserialize for ParserType`. */
  function Deserialize(v: Value): (r: Result<ParserType, DecodeError>)
    ensures r.Ok? <==> v.StringValue?
    ensures v.StringValue? ==> (r.value == VideoPsalm <==> Normalise(v.s) == "videopsalm")
    ensures v.StringValue? ==> (r.value == PlainText <==> Normalise(v.s) == "plaintext")
    ensures v.StringValue? && r.value.Unknown? ==> r.value.s == Normalise(v.s)
  {
    match v
    case OtherValue => Err(ExpectedString)
    case StringValue(s0) =>
      var s := Normalise(s0);
      if s == "videopsalm" then Ok(VideoPsalm)
      else if s == "plaintext" then Ok(PlainText)
      else Ok(Unknown(s))
  }

  /** `retain` keeps exactly the characters that are not separators. */
  lemma {:induction false} RetainMembers(s: string)
    ensures forall c :: c in Retain(s) <==> c in s && !IsSeparator(c)
  {
    if s != [] {
      RetainMembers(s[1..]);
      assert s == [s[0]] + s[1..];
    }
  }

  /** A normalised string has no upper-case letter and no separator. */
  lemma NormalisedIsClean(s: string)
    ensures forall c :: c in Normalise(s) ==> !IsUpper(c) && !IsSeparator(c)
  {
    var l := ToLowercase(s);
    RetainMembers(l);
    forall c | c in Normalise(s) ensures !IsUpper(c) && !IsSeparator(c) {
      assert c in l;
      var i :| 0 <= i < |l| && l[i] == c;
      assert c == LowerChar(s[i]);
    }
  }

  lemma {:induction false} LowercaseIdempotent(s: string)
    ensures ToLowercase(ToLowercase(s)) == ToLowercase(s)
  {
    var l := ToLowercase(s);
    assert |ToLowercase(l)| == |l|;
    forall i | 0 <= i < |l| ensures ToLowercase(l)[i] == l[i] {
      assert l[i] == LowerChar(s[i]);
    }
  }

  lemma {:induction false} RetainOfLowercase(s: string)
    ensures ToLowercase(Retain(s)) == Retain(ToLowercase(s))
  {
    if s != [] {
      RetainOfLowercase(s[1..]);
      assert ToLowercase(s)[1..] == ToLowercase(s[1..]);
      if !IsSeparator(s[0]) {
        assert ToLowercase([s[0]] + Retain(s[1..])) == [LowerChar(s[0])] + ToLowercase(Retain(s[1..]));
      }
    }
  }

  lemma {:induction false} RetainIdempotent(s: string)
    ensures Retain(Retain(s)) == Retain(s)
  {
    if s != [] {
      RetainIdempotent(s[1..]);
      if !IsSeparator(s[0]) {
        assert ([s[0]] + Retain(s[1..]))[1..] == Retain(s[1..]);
      }
    }
  }

  /** Normalising twice is normalising once. */
  lemma NormaliseIdempotent(s: string)
    ensures Normalise(Normalise(s)) == Normalise(s)
  {
    var l := ToLowercase(s);
    calc {
      Normalise(Normalise(s));
      Retain(ToLowercase(Retain(l)));
      { RetainOfLowercase(l); }
      Retain(Retain(ToLowercase(l)));
      { LowercaseIdempotent(s); }
      Retain(Retain(l));
      { RetainIdempotent(l); }
      Retain(l);
    }
  }

  predicate NoSeparator(s: string) {
    forall i :: 0 <= i < |s| ==> !IsSeparator(s[i])
  }

  lemma {:induction false} RetainKeeps(s: string)
    requires NoSeparator(s)
    ensures Retain(s) == s
  {
    if s != [] {
      RetainKeeps(s[1..]);
      assert [s[0]] + s[1..] == s;
    }
  }

  lemma {:induction false} RetainAppend(a: string, b: string)
    ensures Retain(a + b) == Retain(a) + Retain(b)
  {
    if a == [] {
      assert a + b == b;
    } else {
      assert (a + b)[1..] == a[1..] + b;
      RetainAppend(a[1..], b);
    }
  }

  /** Dropping one separator between two separator-free words. */
  lemma RetainJoins(a: string, sep: char, b: string)
    requires NoSeparator(a) && IsSeparator(sep) && NoSeparator(b)
    ensures Retain(a + [sep] + b) == a + b
  {
    RetainAppend(a + [sep], b);
    RetainAppend(a, [sep]);
    RetainKeeps(a);
    RetainKeeps(b);
  }

  lemma LowerVideoSpaceSeparated()
    ensures ToLowercase("Video Psalm") == "video" + [' '] + "psalm"
  {
  }

  lemma LowerVideoDashed()
    ensures ToLowercase("video-psalm") == "video" + ['-'] + "psalm"
  {
  }

  lemma LowerPlainUnderscored()
    ensures ToLowercase("PLAIN_TEXT") == "plain" + ['_'] + "text"
  {
  }

  lemma NormaliseVideoSpaceSeparated()
    ensures Normalise("Video Psalm") == "videopsalm"
  {
    LowerVideoSpaceSeparated();
    RetainJoins("video", ' ', "psalm");
  }

  lemma NormaliseVideoDashed()
    ensures Normalise("video-psalm") == "videopsalm"
  {
    LowerVideoDashed();
    RetainJoins("video", '-', "psalm");
  }

  lemma NormalisePlainUnderscored()
    ensures Normalise("PLAIN_TEXT") == "plaintext"
  {
    LowerPlainUnderscored();
    RetainJoins("plain", '_', "text");
  }

  /** Spellings the configuration may use for the two front ends. */
  lemma RecognisedSpellings()
    ensures Deserialize(StringValue("Video Psalm")) == Ok(VideoPsalm)
    ensures Deserialize(StringValue("video-psalm")) == Ok(VideoPsalm)
    ensures Deserialize(StringValue("PLAIN_TEXT")) == Ok(PlainText)
  {
    NormaliseVideoSpaceSeparated();
    NormaliseVideoDashed();
    NormalisePlainUnderscored();
  }

  lemma NormaliseVideoPsalm()
    ensures Normalise("VideoPsalm") == "videopsalm"
  {
    assert ToLowercase("VideoPsalm") == "videopsalm";
    RetainKeeps("videopsalm");
  }

  lemma NormalisePlainText()
    ensures Normalise("PlainText") == "plaintext"
  {
    assert ToLowercase("PlainText") == "plaintext";
    RetainKeeps("plaintext");
  }

  /** Reading back what Display prints gives the known variants again. */
  lemma DisplayReadsBack(p: ParserType)
    requires !p.Unknown?
    ensures Deserialize(StringValue(Display(p))) == Ok(p)
  {
    NormaliseVideoPsalm();
    NormalisePlainText();
  }
}
