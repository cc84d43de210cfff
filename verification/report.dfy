/** The metadata report: parse the requested attribute, connect to the
    message bus, find the active player, fetch its track metadata, check
    that album-artist data is present, then print one line for the
    requested attribute. The three bus operations are inputs (`Facade`);
    printing, exiting and panicking are returned as values (`Termination`),
    together with the trace of bus operations performed (`Run.calls`). */
module Report {
  import opened Wrappers
  import opened SongAttribute
  import Format

  /** A failure reported by the media-control library; its contents are
      never inspected. */
  datatype FacadeError = FacadeError(description: string)

  /** A snapshot of the active player's track metadata. Each accessor of
      the library may report its field as absent. */
  datatype Metadata = Metadata(
    albumArtists: Option<seq<string>>,
    artists: Option<seq<string>>,
    title: Option<string>)

  /** What the three library calls return on this run. The handles they
      yield are opaque, so only success or failure is recorded for the
      first two. */
  datatype Facade = Facade(
    connect: Result<(), FacadeError>,
    findActive: Result<(), FacadeError>,
    getMetadata: Result<Metadata, FacadeError>)

  /** The library calls, in the order the report makes them. */
  datatype Call = Connect | FindActive | GetMetadata

  const AllCalls: seq<Call> := [Connect, FindActive, GetMetadata]

  /** The context attached to each library failure before it is propagated. */
  const ConnectContext: string := "Could not connect to D-Bus"
  const FindActiveContext: string := "Could not find an active player"
  const MetadataContext: string := "could not get player metadata"

  /** The error value the report returns: a library failure wrapped with
      the context of the step that produced it. */
  datatype ReportError = ReportError(context: string, cause: FacadeError)

  /** Why the report aborts with a panic: an `unwrap` of an absent field
      (named by its accessor), or indexing past the end of a sequence. */
  datatype PanicReason =
    | UnwrapNone(accessor: string)
    | IndexOutOfBounds(index: nat, len: nat)

  /** How the report ends.
      - `Returned`: the function returns `result` after printing `stdout`.
      - `Exited`: the function ends the process itself with `code`.
      - `Panicked`: the process aborts.
      - `UsageError`: the argument layer refuses the token with `message`
        before the report body runs. */
  datatype Termination =
    | Returned(stdout: seq<string>, result: Result<(), ReportError>)
    | Exited(code: int)
    | Panicked(reason: PanicReason)
    | UsageError(message: string)

  /** One run: the library calls made, in order, and how it ended. */
  datatype Run = Run(calls: seq<Call>, end: Termination)

  /** The output templates of the three attributes. */
  const ArtistTemplate: string := "♫ {}"
  const SongTemplate: string := "♫ {}"
  const BothTemplate: string := "♫ {} - {}"

  /** The ending once metadata is in hand: the album-artist gate, the two
      unwraps, then the line for the chosen attribute. */
  function Present(choice: Attribute, m: Metadata): (t: Termination)
    ensures t.Returned? ==> t.result.Ok? && |t.stdout| == 1
    ensures t.Exited? ==> m.albumArtists.None? && t.code == 1
    ensures t.Panicked? ==> m.albumArtists.Some?
  {
    if m.albumArtists.None? then Exited(1)
    else if m.artists.None? then Panicked(UnwrapNone("artists"))
    else if m.title.None? then Panicked(UnwrapNone("title"))
    else
      var artists := m.artists.value;
      var songName := m.title.value;
      match choice
      case Artist =>
        if |artists| == 0 then Panicked(IndexOutOfBounds(0, 0))
        else Returned([Format.Interpolate(ArtistTemplate, [artists[0]])], Ok(()))
      case Song =>
        Returned([Format.Interpolate(SongTemplate, [songName])], Ok(()))
      case Both =>
        if |artists| == 0 then Panicked(IndexOutOfBounds(0, 0))
        else Returned([Format.Interpolate(BothTemplate, [artists[0], songName])], Ok(()))
  }

  /** The whole report. Library calls happen in the fixed order
      connect, find-active, get-metadata, each only after the previous one
      succeeded; a line is printed only after all three succeeded. */
  function PrintSpotifyMetadata(arg: string, f: Facade): (r: Run)
    ensures r.calls <= AllCalls
    ensures r.calls == [] <==> FromStr(arg).Err?
    ensures |r.calls| > 1 ==> f.connect.Ok?
    ensures |r.calls| > 2 ==> f.findActive.Ok?
    ensures r.end.Returned? && r.end.stdout != [] ==>
              r.calls == AllCalls && f.getMetadata.Ok?
    ensures r.end.Returned? && r.end.result.Err? ==> r.end.stdout == []
    ensures FromStr(arg).Ok? && f.connect.Ok? && f.findActive.Ok? && f.getMetadata.Ok? ==>
              r == Run(AllCalls, Present(FromStr(arg).value, f.getMetadata.value))
  {
    match FromStr(arg)
    case Err(message) => Run([], UsageError(message))
    case Ok(choice) =>
      match f.connect
      case Err(e) =>
        Run([Connect], Returned([], Err(ReportError(ConnectContext, e))))
      case Ok(_) =>
        match f.findActive
        case Err(e) =>
          Run([Connect, FindActive], Returned([], Err(ReportError(FindActiveContext, e))))
        case Ok(_) =>
          match f.getMetadata
          case Err(e) =>
            Run(AllCalls, Returned([], Err(ReportError(MetadataContext, e))))
          case Ok(m) =>
            Run(AllCalls, Present(choice, m))
  }

  /** A token that does not parse ends the run before any library call. */
  lemma ParseComesFirst(arg: string, f: Facade)
    requires FromStr(arg).Err?
    ensures PrintSpotifyMetadata(arg, f) == Run([], UsageError(ParseError))
  {
  }

  /** The first failing library call ends the run with its own context,
      prints nothing, and makes no later call. */
  lemma FirstFailureShortCircuits(arg: string, f: Facade)
    requires FromStr(arg).Ok?
    ensures f.connect.Err? ==>
      PrintSpotifyMetadata(arg, f)
        == Run([Connect], Returned([], Err(ReportError(ConnectContext, f.connect.error))))
    ensures f.connect.Ok? && f.findActive.Err? ==>
      PrintSpotifyMetadata(arg, f)
        == Run([Connect, FindActive], Returned([], Err(ReportError(FindActiveContext, f.findActive.error))))
    ensures f.connect.Ok? && f.findActive.Ok? && f.getMetadata.Err? ==>
      PrintSpotifyMetadata(arg, f)
        == Run(AllCalls, Returned([], Err(ReportError(MetadataContext, f.getMetadata.error))))
  {
  }

  /** The results of calls that are never made do not influence the run. */
  lemma LaterResultsIgnored(arg: string, f: Facade, g: Facade)
    requires FromStr(arg).Ok?
    requires f.connect == g.connect
    requires f.connect.Err? || f.findActive == g.findActive
    requires f.connect.Err? || f.findActive.Err? || f.getMetadata == g.getMetadata
    ensures PrintSpotifyMetadata(arg, f) == PrintSpotifyMetadata(arg, g)
  {
  }

  /** Without album-artist data the report ends the process with status 1
      and prints nothing, whatever the other fields hold. */
  lemma GateClosedExits(choice: Attribute, m: Metadata)
    requires m.albumArtists.None?
    ensures Present(choice, m) == Exited(1)
  {
  }

  /** Once the gate has passed, the report panics exactly when the artists
      or the title are absent, or when the artist is needed and the
      artists sequence is empty. */
  lemma PanicExactly(choice: Attribute, m: Metadata)
    requires m.albumArtists.Some?
    ensures Present(choice, m).Panicked? <==>
      || m.artists.None?
      || m.title.None?
      || (choice != Song && |m.artists.value| == 0)
    ensures !Present(choice, m).Panicked? ==> Present(choice, m).Returned?
    ensures m.artists.None? ==> Present(choice, m) == Panicked(UnwrapNone("artists"))
    ensures m.artists.Some? && m.title.None? ==>
      Present(choice, m) == Panicked(UnwrapNone("title"))
    ensures m.artists.Some? && m.title.Some? && choice != Song && |m.artists.value| == 0 ==>
      Present(choice, m) == Panicked(IndexOutOfBounds(0, 0))
  {
  }

  /** An illustration of `PanicExactly`: the gate checks album artists,
      not artists, so metadata with album artists but no artists passes
      the gate and still panics. */
  lemma GateDoesNotPreventPanic(choice: Attribute, title: string)
    ensures Present(choice, Metadata(Some([]), None, Some(title)))
      == Panicked(UnwrapNone("artists"))
  {
  }

  /** The exact line printed for each attribute once every field is usable. */
  lemma OutputLines(m: Metadata)
    requires m.albumArtists.Some? && m.artists.Some? && m.title.Some?
    ensures |m.artists.value| > 0 ==>
      Present(Artist, m) == Returned(["♫ " + m.artists.value[0]], Ok(()))
    ensures Present(Song, m) == Returned(["♫ " + m.title.value], Ok(()))
    ensures |m.artists.value| > 0 ==>
      Present(Both, m)
        == Returned(["♫ " + m.artists.value[0] + " - " + m.title.value], Ok(()))
  {
    var lit := "♫ ";
    var title := m.title.value;
    assert Present(Song, m) == Returned(["♫ " + title], Ok(())) by {
      assert Format.Literal(lit);
      assert SongTemplate == lit + "{}";
      Format.InterpolateOne(lit, title);
    }
    if |m.artists.value| > 0 {
      var a := m.artists.value[0];
      assert Present(Artist, m) == Returned(["♫ " + a], Ok(())) by {
        assert Format.Literal(lit);
        assert ArtistTemplate == lit + "{}";
        Format.InterpolateOne(lit, a);
      }
      assert Present(Both, m) == Returned(["♫ " + a + " - " + title], Ok(())) by {
        assert Format.Literal(lit) && Format.Literal(" - ");
        assert BothTemplate == lit + "{}" + " - " + "{}";
        Format.InterpolateTwo(lit, " - ", a, title);
      }
    }
  }

  /** The song line needs the artists list present but not non-empty:
      once the gate has passed and the title is present, it is printed for
      any present artists list, and an absent one still panics. */
  lemma SongIgnoresArtistCount(m: Metadata)
    requires m.albumArtists.Some? && m.title.Some?
    ensures m.artists.Some? ==> Present(Song, m) == Returned(["♫ " + m.title.value], Ok(()))
    ensures m.artists.None? ==> Present(Song, m) == Panicked(UnwrapNone("artists"))
  {
    if m.artists.Some? {
      OutputLines(m);
    }
  }

  /** Only the first artist matters: metadata that agrees on the gate, the
      title and the first artist gives the same ending. */
  lemma OnlyFirstArtistUsed(choice: Attribute, m: Metadata, n: Metadata)
    requires m.albumArtists.Some? <==> n.albumArtists.Some?
    requires m.title == n.title
    requires m.artists.Some? && n.artists.Some?
    requires |m.artists.value| > 0 && |n.artists.value| > 0
    requires m.artists.value[0] == n.artists.value[0]
    ensures Present(choice, m) == Present(choice, n)
  {
  }
}
