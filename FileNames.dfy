/** How the tool tells the two containers apart by file name, and the name
    it gives a converted file. Names are compared character by character,
    case-sensitively, from the end. */
module FileNames {
  import opened Wrappers

  /** The two recognised extension stems, without their one-letter prefix. */
  const ShwStem: string := "shw"
  const ShzStem: string := "shz"

  /** `getFileTypeFromName`: `Some("")` for names shorter than 6 characters,
      the last four characters when they follow a '.' and end in one of the
      stems, `None` when the function falls off its end. */
  function FileType(name: string): (r: Option<string>)
    ensures |name| < 6 <==> r == Some("")
    ensures r.Some? && r.value != "" ==>
      |r.value| == 4 && name == name[..|name| - 5] + ['.'] + r.value
      && (r.value[1..] == ShwStem || r.value[1..] == ShzStem)
  {
    if |name| < 6 then Some("")
    else if name[|name| - 5] == '.' && name[|name| - 3..] == ShwStem then Some(name[|name| - 4..])
    else if name[|name| - 5] == '.' && name[|name| - 3..] == ShzStem then Some(name[|name| - 4..])
    else None
  }

  /** Every name of the form `<stem>.<c>shw` or `<stem>.<c>shz` with a
      non-empty stem is recognised, and its type is `<c>shw` or `<c>shz`. */
  lemma FileTypeOfShowName(stem: string, c: char, ext: string)
    requires |stem| >= 1 && (ext == ShwStem || ext == ShzStem)
    ensures FileType(stem + ['.', c] + ext) == Some([c] + ext)
  {
    var name := stem + ['.', c] + ext;
    assert name[|name| - 5] == '.';
    assert name[|name| - 3..] == ext;
    assert name[|name| - 4..] == [c] + ext;
  }

  /** Examples where the positional test does not match: a three-letter
      extension and an upper-case one. */
  lemma PlainExtensionsUnresolved()
    ensures FileType("show.shw") == None && FileType("SHOW.RSHW") == None
    ensures FileType("x") == Some("") && FileType("x.rshw") == Some("rshw")
  {
  }

  /** `infilename[:-1] + letter`: the default output name of a conversion
      ('z' when converting to the archive container, 'w' back). */
  function DefaultOutputName(input: string, letter: char): (r: string)
    ensures |r| == if input == [] then 1 else |input|
    ensures r[|r| - 1] == letter && r[..|r| - 1] == if input == [] then [] else input[..|input| - 1]
  {
    if input == [] then [letter] else input[..|input| - 1] + [letter]
  }

  /** Renaming a recognised input gives a name of the other container kind
      with the same prefix letter. */
  lemma DefaultOutputNameSwapsKind(input: string, letter: char)
    requires FileType(input).Some? && FileType(input).value != ""
    requires letter == 'w' || letter == 'z'
    ensures FileType(DefaultOutputName(input, letter)) == Some(FileType(input).value[..3] + [letter])
  {
    var t := FileType(input).value;
    var out := DefaultOutputName(input, letter);
    var ext := "sh" + [letter];
    assert t[1] == 's' && t[2] == 'h' by {
      assert t[1..][0] == 's' && t[1..][1] == 'h';
    }
    assert t[..3] + [letter] == [t[0]] + ext;
    assert out == input[..|input| - 5] + ['.', t[0]] + ext;
    FileTypeOfShowName(input[..|input| - 5], t[0], ext);
  }

  /** What the command line does with a file type. */
  datatype Handler =
    | ShwInput     // `t[-1] == 'w'`: the binary container handlers
    | ShzInput     // `t[-1] == 'z'`: the archive container handlers
    | CannotGuess  // "Cannot guess filetype from file extension", exit status -1
    | TypeError    // `None[-1]` raises before any handler runs
    | NoHandler    // neither test matches

  /** The dispatch of `main` on the result of `getFileTypeFromName`, as written:
      only `''` is reported, `None` reaches the subscript. */
  function DispatchAsWritten(t: Option<string>): Handler {
    match t
    case None => TypeError
    case Some(s) =>
      if s == "" then CannotGuess
      else if s[|s| - 1] == 'w' then ShwInput
      else if s[|s| - 1] == 'z' then ShzInput
      else NoHandler
  }

  /** The file name that shows the unreported case: long enough to get past
      the `''` test, but with no recognised extension. */
  lemma UnresolvedNameCrashes()
    ensures FileType("show.wav") == None
    ensures DispatchAsWritten(FileType("show.wav")) == TypeError
  {
  }

  /** The dispatch with `None` reported like `''`. */
  function Dispatch(t: Option<string>): Handler {
    match t
    case None => CannotGuess
    case Some(s) =>
      if s == "" then CannotGuess
      else if s[|s| - 1] == 'w' then ShwInput
      else if s[|s| - 1] == 'z' then ShzInput
      else NoHandler
  }

  /** Every file name either reaches exactly the handler its extension
      names, or is reported as unguessable. */
  lemma DispatchByExtension(name: string)
    ensures Dispatch(FileType(name)) != TypeError && Dispatch(FileType(name)) != NoHandler
    ensures Dispatch(FileType(name)) == ShwInput <==>
      |name| >= 6 && name[|name| - 5] == '.' && name[|name| - 3..] == ShwStem
    ensures Dispatch(FileType(name)) == ShzInput <==>
      |name| >= 6 && name[|name| - 5] == '.' && name[|name| - 3..] == ShzStem
    ensures FileType(name).Some? ==> Dispatch(FileType(name)) == DispatchAsWritten(FileType(name))
  {
    if |name| >= 6 {
      var tail := name[|name| - 3..];
      assert tail[2] == name[|name| - 1];
      if FileType(name).Some? {
        var t := FileType(name).value;
        assert t[3] == name[|name| - 1];
      }
    }
  }
}
