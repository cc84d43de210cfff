/** The program entry point: run the report and turn its ending into what
    the process does — the lines it printed and its exit status, or an
    abort. */
module Process {
  import opened Wrappers
  import opened SongAttribute
  import opened Report

  /** What the process shows to the outside world.
      - `Terminated`: the lines written to standard output and the exit status.
      - `Aborted`: a panic ended the process.
      - `Refused`: the argument layer rejected the token with `message`
        and ended the process by its own rules. */
  datatype ProcessOutcome =
    | Terminated(stdout: seq<string>, status: int)
    | Aborted(reason: PanicReason)
    | Refused(message: string)

  /** The entry point: a returned `Ok` ends normally with status 0, a
      returned `Err` ends with status 1 and no further output; an exit
      inside the report keeps its own status. */
  function RunMain(arg: string, f: Facade): (p: ProcessOutcome)
    ensures p.Terminated? && p.status == 0 <==>
      PrintSpotifyMetadata(arg, f).end.Returned?
      && PrintSpotifyMetadata(arg, f).end.result.Ok?
    ensures p.Terminated? && p.stdout != [] ==> p.status == 0
    ensures p.Refused? <==> FromStr(arg).Err?
    ensures p.Refused? ==> p.message == ParseError
    ensures p.Aborted? <==> PrintSpotifyMetadata(arg, f).end.Panicked?
    ensures p.Aborted? ==> p.reason == PrintSpotifyMetadata(arg, f).end.reason
  {
    match PrintSpotifyMetadata(arg, f).end
    case Returned(out, Ok(_)) => Terminated(out, 0)
    case Returned(out, Err(_)) => Terminated(out, 1)
    case Exited(code) => Terminated([], code)
    case Panicked(reason) => Aborted(reason)
    case UsageError(message) => Refused(message)
  }

  /** Any failure of the three library calls ends the process with
      status 1 and nothing printed. */
  lemma FacadeFailureExitsOne(arg: string, f: Facade)
    requires FromStr(arg).Ok?
    requires f.connect.Err? || f.findActive.Err? || f.getMetadata.Err?
    ensures RunMain(arg, f) == Terminated([], 1)
  {
  }

  /** Missing album-artist data ends the process with status 1 and nothing
      printed, whatever the artists and title hold. */
  lemma MissingAlbumArtistsExitsOne(arg: string, f: Facade)
    requires FromStr(arg).Ok?
    requires f.connect.Ok? && f.findActive.Ok? && f.getMetadata.Ok?
    requires f.getMetadata.value.albumArtists.None?
    ensures RunMain(arg, f) == Terminated([], 1)
  {
  }

  /** When every call succeeds and every field the attribute needs is
      usable, the process prints exactly the attribute's line and ends with
      status 0. The song line needs the artists list present but not
      non-empty. */
  lemma SuccessfulReport(a: Attribute, f: Facade)
    requires f.connect.Ok? && f.findActive.Ok? && f.getMetadata.Ok?
    requires var m := f.getMetadata.value;
      && m.albumArtists.Some? && m.artists.Some? && m.title.Some?
      && (a != Song ==> |m.artists.value| > 0)
    ensures var m := f.getMetadata.value;
      RunMain(Token(a), f) == Terminated([
        match a
        case Artist => "♫ " + m.artists.value[0]
        case Song => "♫ " + m.title.value
        case Both => "♫ " + m.artists.value[0] + " - " + m.title.value], 0)
  {
    FromStrToken(a);
    OutputLines(f.getMetadata.value);
    SongIgnoresArtistCount(f.getMetadata.value);
  }

  /** With every call succeeding and album artists present, the process
      aborts exactly when the artists or the title are absent, or when the
      artist is needed and the artists list is empty. */
  lemma PanicAborts(a: Attribute, f: Facade)
    requires f.connect.Ok? && f.findActive.Ok? && f.getMetadata.Ok?
    requires f.getMetadata.value.albumArtists.Some?
    ensures var m := f.getMetadata.value;
      RunMain(Token(a), f).Aborted? <==>
        || m.artists.None?
        || m.title.None?
        || (a != Song && |m.artists.value| == 0)
  {
    FromStrToken(a);
    PanicExactly(a, f.getMetadata.value);
  }

  /** The exit status is 0 exactly when a line was printed; every other
      ordinary ending uses status 1. */
  lemma StatusMatchesOutput(arg: string, f: Facade)
    ensures RunMain(arg, f).Terminated? ==>
      (RunMain(arg, f).status == 0 <==> |RunMain(arg, f).stdout| == 1)
    ensures RunMain(arg, f).Terminated? ==>
      RunMain(arg, f).status == 0 || RunMain(arg, f).status == 1
  {
  }
}
