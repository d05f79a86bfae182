/**
 * The selftext renderer (`sendSubmissionAsContentText`): it refuses adult or
 * spoiler items and texts over the chat platform's 2000-unit message limit,
 * and otherwise posts the title in bold above the text in a markdown block.
 */
module ContentText {
  import opened Wrappers
  import opened JsString
  import opened Submission

  /** The longest `selftext` the renderer accepts, in UTF-16 code units. */
  const MAX_SELFTEXT_LENGTH: nat := 2000

  /** Why the renderer throws instead of posting. */
  datatype Rejection =
    | NsfwOrSpoiler   // "Submission is NSFW or Spoiler"
    | TooLong         // "Submission has more than 2000 characters"

  /**
   * The posted text: the bold title, a line break, then the selftext fenced
   * as a `md` code block. Each part sits at a fixed offset, so given the
   * title's length, title and selftext can be read back from the message.
   */
  function Layout(title: string, selftext: string): (m: string)
    ensures |m| == |title| + |selftext| + 15
    ensures m[..2] == "**" && m[2..|title| + 2] == title && m[|title| + 2..|title| + 4] == "**"
    ensures m[|title| + 4..|title| + 11] == "\n```md\n"
    ensures m[|title| + 11..|m| - 4] == selftext
    ensures m[|m| - 4..] == "\n```"
  {
    var bold := "**" + title + "**";
    var block := "```md\n" + selftext + "\n```";
    bold + "\n" + block
  }

  /**
   * What the renderer does with one item: the message it posts, or the
   * rejection it throws. The adult/spoiler test comes first.
   */
  function SendSubmissionAsContentText(s: Submission): (r: Result<string, Rejection>)
    ensures r.Ok? <==> !s.over18 && !s.spoiler && Utf16Length(s.selftext) <= MAX_SELFTEXT_LENGTH
    ensures r == Err(NsfwOrSpoiler) <==> s.over18 || s.spoiler
    ensures r == Err(TooLong) <==> !s.over18 && !s.spoiler && Utf16Length(s.selftext) > MAX_SELFTEXT_LENGTH
    ensures r.Ok? ==> r.value == Layout(s.title, s.selftext)
  {
    if s.over18 || s.spoiler then
      Err(NsfwOrSpoiler)
    else if Utf16Length(s.selftext) > MAX_SELFTEXT_LENGTH then
      Err(TooLong)
    else
      Ok(Layout(s.title, s.selftext))
  }

  /** The length limit is inclusive: a text of exactly 2000 units is posted, one more unit is refused. */
  lemma LengthLimitBoundary(s: Submission)
    requires !s.over18 && !s.spoiler
    ensures Utf16Length(s.selftext) == MAX_SELFTEXT_LENGTH ==> SendSubmissionAsContentText(s).Ok?
    ensures Utf16Length(s.selftext) == MAX_SELFTEXT_LENGTH + 1 ==> SendSubmissionAsContentText(s) == Err(TooLong)
  {
  }

  /**
   * A text of 2000 characters with one astral character in it is 2001 units
   * long in JavaScript, so the renderer refuses it.
   */
  lemma AstralCharacterCountsTwice(s: Submission, i: nat)
    requires !s.over18 && !s.spoiler
    requires |s.selftext| == MAX_SELFTEXT_LENGTH && i < |s.selftext| && s.selftext[i] as int >= 0x1_0000
    ensures SendSubmissionAsContentText(s) == Err(TooLong)
  {
    var t := s.selftext;
    var rest := [t[i]] + t[i + 1..];
    assert t == t[..i] + rest;
    Utf16LengthSplit(t[..i], rest);
    assert rest[1..] == t[i + 1..];
    assert Utf16Length(rest) == 2 + Utf16Length(t[i + 1..]);
  }

  lemma {:induction false} Utf16LengthSplit(a: string, b: string)
    ensures Utf16Length(a + b) == Utf16Length(a) + Utf16Length(b)
  {
    if a != [] {
      assert (a + b)[1..] == a[1..] + b;
      Utf16LengthSplit(a[1..], b);
    } else {
      assert a + b == b;
    }
  }
}
