/** The two error families of the program and the messages they display as. */
module Errors {

  /** Failure of the MIDI reader (a foreign library); `FilesystemError`
      carries the operating system's message. */
  datatype MIDILoadError = CorruptChunks | FilesystemError(detail: string) | FileTooBig

  /** Errors raised while building the MIDI and soundfont lists. */
  datatype FileLoadError = InvalidFormat | FileNotFound | Corrupt(detail: string)

  /** Errors raised while constructing or running a render. */
  datatype MIDIRendererError = Load(cause: MIDILoadError) | Renderer(msg: string) | Writer(msg: string)

  function FileLoadErrorMessage(e: FileLoadError): (s: string)
    ensures e.InvalidFormat? ==> s == "Invalid File Format"
    ensures e.FileNotFound? ==> s == "File Not Found"
    ensures e.Corrupt? ==> s == "File Corrupt: " + e.detail
  {
    match e
    case InvalidFormat => "Invalid File Format"
    case FileNotFound => "File Not Found"
    case Corrupt(d) => "File Corrupt: " + d
  }

  function MIDILoadErrorMessage(e: MIDILoadError): (s: string)
    ensures e.CorruptChunks? ==> s == "MIDI Load Error: Corrupt Chunks"
    ensures e.FilesystemError? ==> s == "MIDI Load Error: Filesystem Error (" + e.detail + ")"
    ensures e.FileTooBig? ==> s == "MIDI Load Error: File Too Big"
  {
    match e
    case CorruptChunks => "MIDI Load Error: Corrupt Chunks"
    case FilesystemError(d) => "MIDI Load Error: Filesystem Error (" + d + ")"
    case FileTooBig => "MIDI Load Error: File Too Big"
  }

  function RendererErrorMessage(e: MIDIRendererError): (s: string)
    ensures e.Load? ==> s == MIDILoadErrorMessage(e.cause)
    ensures e.Renderer? ==> s == "Renderer Error: " + e.msg
    ensures e.Writer? ==> s == "Writer Error: " + e.msg
  {
    match e
    case Load(c) => MIDILoadErrorMessage(c)
    case Renderer(m) => "Renderer Error: " + m
    case Writer(m) => "Writer Error: " + m
  }

  /** The variant a message was produced from can be told from its first
      characters alone. */
  function FileLoadErrorKind(s: string): nat
  {
    if |s| >= 6 && s[0] == 'I' then 0
    else if |s| >= 6 && s[5] == 'N' then 1
    else 2
  }

  function RendererErrorKind(s: string): nat
  {
    if |s| >= 1 && s[0] == 'M' then 0
    else if |s| >= 1 && s[0] == 'R' then 1
    else 2
  }

  lemma FileLoadErrorPrefixesDistinct(e: FileLoadError)
    ensures FileLoadErrorKind(FileLoadErrorMessage(e)) == (if e.InvalidFormat? then 0 else if e.FileNotFound? then 1 else 2)
  {
    var s := FileLoadErrorMessage(e);
    if e.Corrupt? {
      assert s[..14] == "File Corrupt: ";
      assert s[0] == 'F' && s[5] == 'C';
    }
  }

  lemma RendererErrorPrefixesDistinct(e: MIDIRendererError)
    ensures RendererErrorKind(RendererErrorMessage(e)) == (if e.Load? then 0 else if e.Renderer? then 1 else 2)
  {
    var s := RendererErrorMessage(e);
    match e
    case Load(c) =>
      assert s[..17] == "MIDI Load Error: " by {
        match c
        case CorruptChunks =>
        case FilesystemError(d) => assert s == "MIDI Load Error: Filesystem Error (" + d + ")";
        case FileTooBig =>
      }
    case Renderer(m) => assert s[..16] == "Renderer Error: ";
    case Writer(m) => assert s[..14] == "Writer Error: ";
  }

  lemma PrefixCancel(p: string, a: string, b: string)
    requires p + a == p + b
    ensures a == b
  {
    assert a == (p + a)[|p|..];
    assert b == (p + b)[|p|..];
  }

  /** Distinct errors display differently: no information is lost in the message. */
  lemma FileLoadErrorMessageInjective(e1: FileLoadError, e2: FileLoadError)
    requires FileLoadErrorMessage(e1) == FileLoadErrorMessage(e2)
    ensures e1 == e2
  {
    FileLoadErrorPrefixesDistinct(e1);
    FileLoadErrorPrefixesDistinct(e2);
    if e1.Corrupt? && e2.Corrupt? {
      PrefixCancel("File Corrupt: ", e1.detail, e2.detail);
    }
  }

  lemma RendererErrorMessageInjective(e1: MIDIRendererError, e2: MIDIRendererError)
    requires RendererErrorMessage(e1) == RendererErrorMessage(e2)
    ensures e1 == e2
  {
    RendererErrorPrefixesDistinct(e1);
    RendererErrorPrefixesDistinct(e2);
    var s := RendererErrorMessage(e1);
    match e1
    case Renderer(m1) => PrefixCancel("Renderer Error: ", m1, e2.msg);
    case Writer(m1) => PrefixCancel("Writer Error: ", m1, e2.msg);
    case Load(c1) =>
      var c2 := e2.cause;
      // The three load messages differ in their 18th or 22nd character.
      assert s[..17] == "MIDI Load Error: " by {
        match c1
        case CorruptChunks =>
        case FilesystemError(d) => assert s == "MIDI Load Error: Filesystem Error (" + d + ")";
        case FileTooBig =>
      }
      LoadMessageShape(c1);
      LoadMessageShape(c2);
      if c1.FilesystemError? && c2.FilesystemError? {
        var p := "MIDI Load Error: Filesystem Error (";
        assert p + c1.detail + ")" == p + (c1.detail + ")");
        assert p + c2.detail + ")" == p + (c2.detail + ")");
        PrefixCancel(p, c1.detail + ")", c2.detail + ")");
        assert c1.detail == (c1.detail + ")")[..|c1.detail|];
        assert c2.detail == (c2.detail + ")")[..|c2.detail|];
      }
  }

  lemma LoadMessageShape(c: MIDILoadError)
    ensures var s := MIDILoadErrorMessage(c);
      |s| >= 22 && s[17] == (if c.CorruptChunks? then 'C' else 'F')
      && (c.FilesystemError? ==> s[21] == 's') && (c.FileTooBig? ==> s[21] == ' ')
  {
    var s := MIDILoadErrorMessage(c);
    if c.FilesystemError? {
      assert s[..35] == "MIDI Load Error: Filesystem Error (";
    }
  }
}
