/** `FileUploadPipe`: the validators its constructor assembles, the MIME
    regular expression it builds from a list of types, and the exception it
    raises on a failed validation. Running the validators (`ParseFilePipe`)
    and matching the expression are library behaviour, not modelled. */
module FileUpload {
  import opened Wrappers
  import opened Text
  import opened Exceptions
  import opened GlobalFilter

  const DefaultMaxSize: int := 20 * 1024 * 1024

  // ---------------------------------------------------------------------
  // Escaping and the MIME expression
  // ---------------------------------------------------------------------

  /** The characters `escapeRegex` puts a backslash before. */
  predicate IsRegexSpecial(c: char) {
    c in {'.', '*', '+', '?', '^', '$', '{', '}', '(', ')', '|', '[', ']', '\\'}
  }

  function EscapeChar(c: char): (r: string)
    ensures IsRegexSpecial(c) ==> r == ['\\', c]
    ensures !IsRegexSpecial(c) ==> r == [c]
  {
    if IsRegexSpecial(c) then ['\\', c] else [c]
  }

  /** `escapeRegex`. */
  function EscapeRegex(s: string): (r: string)
    ensures |s| <= |r| <= 2 * |s|
  {
    if s == [] then [] else EscapeChar(s[0]) + EscapeRegex(s[1..])
  }

  /** Adds a character to the front of the first alternative. */
  function Prepend(c: char, alts: seq<string>): (r: seq<string>)
    requires |alts| >= 1
    ensures |r| == |alts|
  {
    [[c] + alts[0]] + alts[1..]
  }

  /** Reads an expression body back as its `|`-separated alternatives,
      taking `\x` as the literal character `x`. */
  function Alternatives(r: string): (alts: seq<string>)
    ensures |alts| >= 1
  {
    if r == [] then [""]
    else if r[0] == '|' then [""] + Alternatives(r[1..])
    else if r[0] == '\\' && |r| >= 2 then Prepend(r[1], Alternatives(r[2..]))
    else Prepend(r[0], Alternatives(r[1..]))
  }

  lemma ReadEscapedChar(c: char, t: string)
    ensures Alternatives(EscapeChar(c) + t) == Prepend(c, Alternatives(t))
  {
    var r := EscapeChar(c) + t;
    if IsRegexSpecial(c) {
      assert r[0] == '\\' && r[1] == c && r[2..] == t;
    } else {
      assert r[0] == c && r[1..] == t;
    }
  }

  /** An escaped string reads back as itself, glued to the first
      alternative of what follows it. */
  lemma {:induction false} EscapedPrefix(s: string, t: string)
    ensures Alternatives(EscapeRegex(s) + t) == [s + Alternatives(t)[0]] + Alternatives(t)[1..]
  {
    var a := Alternatives(t);
    if s == [] {
      assert EscapeRegex(s) + t == t;
      assert s + a[0] == a[0];
      assert [a[0]] + a[1..] == a;
    } else {
      var t' := EscapeRegex(s[1..]) + t;
      assert EscapeRegex(s) + t == EscapeChar(s[0]) + t';
      EscapedPrefix(s[1..], t);
      ReadEscapedChar(s[0], t');
      PrependGlue(s, a, Alternatives(t'));
    }
  }

  lemma PrependGlue(s: string, a: seq<string>, b: seq<string>)
    requires s != [] && |a| >= 1 && b == [s[1..] + a[0]] + a[1..]
    ensures Prepend(s[0], b) == [s + a[0]] + a[1..]
  {
    assert [s[0]] + (s[1..] + a[0]) == s + a[0];
  }

  /** A string with no special character is its own escape. */
  lemma {:induction false} PlainUnescaped(s: string)
    requires forall i :: 0 <= i < |s| ==> !IsRegexSpecial(s[i])
    ensures EscapeRegex(s) == s
  {
    if s != [] {
      PlainUnescaped(s[1..]);
    }
  }

  /** The escaped types, each escaped on its own. */
  function EscapeAll(types: seq<string>): (r: seq<string>)
    ensures |r| == |types|
    ensures forall i :: 0 <= i < |types| ==> r[i] == EscapeRegex(types[i])
  {
    if types == [] then [] else [EscapeRegex(types[0])] + EscapeAll(types[1..])
  }

  /** The body of the MIME expression lists exactly the given types, in
      order, whatever characters they contain. */
  lemma {:induction false} MimeAlternativesRoundTrip(types: seq<string>)
    requires |types| >= 1
    ensures Alternatives(Join(EscapeAll(types), "|")) == types
  {
    var escaped := EscapeAll(types);
    if |types| == 1 {
      EscapedPrefix(types[0], "");
      assert EscapeRegex(types[0]) + "" == EscapeRegex(types[0]);
      assert types[0] + "" == types[0];
    } else {
      var rest := Join(EscapeAll(types[1..]), "|");
      assert escaped[1..] == EscapeAll(types[1..]);
      assert Join(escaped, "|") == EscapeRegex(types[0]) + ("|" + rest);
      MimeAlternativesRoundTrip(types[1..]);
      EscapedPrefix(types[0], "|" + rest);
      assert Alternatives("|" + rest) == [""] + Alternatives(rest);
      assert types[0] + "" == types[0];
      assert [types[0]] + types[1..] == types;
    }
  }

  /** A `RegExp`: its source and whether it carries the `i` flag. */
  datatype Pattern = Pattern(source: string, ignoreCase: bool)

  /** `buildMimeRegex`. */
  function BuildMimeRegex(types: seq<string>): (p: Pattern)
    ensures p.ignoreCase
    ensures |p.source| >= 4 && p.source[..2] == "^(" && p.source[|p.source| - 2..] == ")$"
  {
    var body := Join(EscapeAll(types), "|");
    var source := "^(" + body + ")$";
    assert source[..2] == "^(" && source[|source| - 2..] == ")$";
    Pattern(source, true)
  }

  /** Between its anchors the MIME expression holds the listed types and
      nothing else. */
  lemma MimeRegexListsTypes(types: seq<string>)
    requires |types| >= 1
    ensures var src := BuildMimeRegex(types).source;
            Alternatives(src[2..|src| - 2]) == types
  {
    var body := Join(EscapeAll(types), "|");
    var src := "^(" + body + ")$";
    assert src[2..|src| - 2] == body;
    MimeAlternativesRoundTrip(types);
  }

  // ---------------------------------------------------------------------
  // The pipe
  // ---------------------------------------------------------------------

  datatype Validator = MaxFileSize(maxSize: int) | FileType(fileType: Pattern)

  datatype UploadOptions = UploadOptions(
    maxSizeBytes: Option<int>,
    allowedMimeTypes: Option<seq<string>>,
    allowedFileType: Option<Pattern>,
    fileIsRequired: Option<bool>)

  /** The validator list the constructor assembles. */
  function ValidatorsFor(options: UploadOptions): seq<Validator> {
    [MaxFileSize(options.maxSizeBytes.GetOr(DefaultMaxSize))]
    + (if options.allowedFileType.Some? then [FileType(options.allowedFileType.value)]
       else if options.allowedMimeTypes.Some? && |options.allowedMimeTypes.value| > 0 then
         [FileType(BuildMimeRegex(options.allowedMimeTypes.value))]
       else [])
  }

  /** The size check always comes first; an explicit pattern wins over the
      MIME list, and an empty or absent list adds no type check. */
  lemma ValidatorChoice(options: UploadOptions)
    ensures var vs := ValidatorsFor(options);
            && 1 <= |vs| <= 2
            && vs[0] == MaxFileSize(options.maxSizeBytes.GetOr(DefaultMaxSize))
            && (options.allowedFileType.Some? ==> vs[1..] == [FileType(options.allowedFileType.value)])
            && ((options.allowedFileType.None? && options.allowedMimeTypes.Some? && |options.allowedMimeTypes.value| > 0)
                ==> vs[1..] == [FileType(BuildMimeRegex(options.allowedMimeTypes.value))])
            && (|vs| == 1 <==> options.allowedFileType.None?
                                && (options.allowedMimeTypes.None? || options.allowedMimeTypes.value == []))
  {
  }

  /** `exceptionFactory`: a failed validation becomes a 400 VALIDATION_ERROR
      application exception carrying the library's message. */
  function ValidationFailure(error: string): (e: Exception)
    ensures e.AppException? && e.code == ValidationError && e.status == BadRequestStatus
    ensures e.message == error
  {
    AppException(ValidationError, error, BadRequestStatus)
  }

  /** What the client sees when an upload is rejected. */
  lemma RejectedUploadReply(error: string, requestId: Option<string>, timestamp: string)
    ensures var r := Catch(ValidationFailure(error), requestId, timestamp);
            r.status == 400 && r.body.code == ValidationError && r.body.message == Text(error) && !r.body.success
  {
  }

  class FileUploadPipe {
    var validators: seq<Validator>
    var fileIsRequired: bool

    constructor(options: UploadOptions)
      ensures validators == ValidatorsFor(options)
      ensures fileIsRequired == options.fileIsRequired.GetOr(true)
    {
      var list := [MaxFileSize(options.maxSizeBytes.GetOr(DefaultMaxSize))];
      if options.allowedFileType.Some? {
        list := list + [FileType(options.allowedFileType.value)];
      } else if options.allowedMimeTypes.Some? && |options.allowedMimeTypes.value| > 0 {
        list := list + [FileType(BuildMimeRegex(options.allowedMimeTypes.value))];
      }
      validators := list;
      fileIsRequired := options.fileIsRequired.GetOr(true);
    }
  }

  /** The avatar upload pipe: 2 MiB (2 * 1024 * 1024 bytes), four image types, a file required. */
  const AvatarOptions := UploadOptions(Some(2097152), Some(AvatarTypes), None, Some(true))

  const AvatarTypes: seq<string> := ["image/jpeg", "image/png", "image/webp", "image/gif"]

  /** The avatar pipe checks a 2 MiB size limit and then the case-insensitive
      MIME expression whose alternatives are exactly the four image types. */
  lemma AvatarValidators(options: UploadOptions)
    requires options == AvatarOptions
    ensures var vs := ValidatorsFor(options);
            && |vs| == 2 && vs[0] == MaxFileSize(2097152)
            && vs[1].FileType? && vs[1].fileType.ignoreCase
            && var src := vs[1].fileType.source;
               Alternatives(src[2..|src| - 2]) == AvatarTypes
  {
    AvatarValidatorList(options);
    MimeRegexListsTypes(options.allowedMimeTypes.value);
  }

  lemma AvatarValidatorList(options: UploadOptions)
    requires options == AvatarOptions
    ensures options.allowedMimeTypes == Some(AvatarTypes)
    ensures ValidatorsFor(options) == [MaxFileSize(2097152), FileType(BuildMimeRegex(options.allowedMimeTypes.value))]
  {
    assert options.allowedFileType.None? && options.maxSizeBytes == Some(2097152);
    assert options.allowedMimeTypes == Some(AvatarTypes) && |AvatarTypes| == 4;
    MimeListValidators(options);
  }

  /** With no explicit pattern and a non-empty MIME list, the pipe checks the
      size and then the MIME expression. */
  lemma MimeListValidators(options: UploadOptions)
    requires options.allowedFileType.None? && options.allowedMimeTypes.Some? && options.allowedMimeTypes.value != []
    ensures ValidatorsFor(options)
            == [MaxFileSize(options.maxSizeBytes.GetOr(DefaultMaxSize)), FileType(BuildMimeRegex(options.allowedMimeTypes.value))]
  {
  }
}
