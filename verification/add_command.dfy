/** The argument layout of `node acoustic add …` (acoustic.js lines
    189-211): an archive content type takes the contained content type and
    the file from the next two arguments, any other content type takes the
    file from the next one. */
module AddCommand {
  import opened Wrappers

  const Zip: string := "application/zip"
  const Gzip: string := "application/gzip"

  /** `process.argv[i]`: `None` (JavaScript `undefined`) past the end. */
  function Arg(argv: seq<string>, i: nat): (a: Option<string>)
    ensures a.Some? <==> i < |argv|
    ensures a.Some? ==> a.value == argv[i]
  {
    if i < |argv| then Some(argv[i]) else None
  }

  /** JavaScript falsiness of a string argument: absent or empty. */
  predicate Missing(a: Option<string>) {
    a.None? || a.value == ""
  }

  /** The content type names a zip or gzip archive of audio files. */
  predicate IsArchive(contentType: Option<string>) {
    contentType == Some(Zip) || contentType == Some(Gzip)
  }

  /** The arguments handed to `addAudio`, and whether the usage line for
      the chosen layout is printed because an argument is missing. The
      usage line does not stop the command: `addAudio` is called either
      way. */
  datatype AddArgs = AddArgs(audioName: Option<string>, contentType: Option<string>,
                             containedContentType: Option<string>, inputFile: Option<string>,
                             usageShown: bool)

  function ParseAdd(argv: seq<string>): (a: AddArgs)
    ensures a.audioName == Arg(argv, 3) && a.contentType == Arg(argv, 4)
    ensures IsArchive(a.contentType) ==>
              a.containedContentType == Arg(argv, 5) && a.inputFile == Arg(argv, 6)
    ensures !IsArchive(a.contentType) ==>
              a.containedContentType == None && a.inputFile == Arg(argv, 5)
    ensures a.usageShown <==>
              Missing(a.inputFile) || (IsArchive(a.contentType) && Missing(a.containedContentType))
  {
    var contentType := Arg(argv, 4);
    if IsArchive(contentType) then
      var contained := Arg(argv, 5);
      var file := Arg(argv, 6);
      AddArgs(Arg(argv, 3), contentType, contained, file, Missing(contained) || Missing(file))
    else
      var file := Arg(argv, 5);
      AddArgs(Arg(argv, 3), contentType, None, file, Missing(file))
  }

  /** The command line a user types for an `add`: the contained content type
      is written only for an archive. */
  function AddCommandLine(audioName: string, contentType: string,
                          containedContentType: Option<string>, inputFile: string): seq<string>
  {
    ["node", "acoustic", "add", audioName, contentType]
    + (if containedContentType.Some? then [containedContentType.value] else [])
    + [inputFile]
  }

  /** Reading back a well-formed command line recovers what was written:
      the contained content type is present exactly for an archive, and the
      usage line appears only for an empty argument. */
  lemma ParseAddRoundTrip(audioName: string, contentType: string,
                          containedContentType: Option<string>, inputFile: string)
    requires IsArchive(Some(contentType)) <==> containedContentType.Some?
    ensures ParseAdd(AddCommandLine(audioName, contentType, containedContentType, inputFile))
            == AddArgs(Some(audioName), Some(contentType), containedContentType, Some(inputFile),
                       inputFile == "" || containedContentType == Some(""))
  {
  }

  /** A non-archive content type ignores anything after the file. */
  lemma ExtraArgumentsIgnored(argv: seq<string>, extra: seq<string>)
    requires |argv| >= 6
    requires !IsArchive(Some(argv[4]))
    ensures ParseAdd(argv + extra) == ParseAdd(argv)
  {
    assert (argv + extra)[3] == argv[3] && (argv + extra)[4] == argv[4] && (argv + extra)[5] == argv[5];
  }
}
