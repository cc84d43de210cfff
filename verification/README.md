# tmux_player report, modelled in Dafny

`tmux_player` is a small command-line tool that prints one line about the
track the active media player is playing. It is meant for a tmux status bar.
It takes one argument: `artist`, `song` or `both`. It then connects to the
D-Bus session bus through the MPRIS library, finds the active player and
reads its track metadata. If the metadata carries album-artist data, it
prints `♫ <artist>`, `♫ <title>` or `♫ <artist> - <title>`.

This project models that program (`src/main.rs`) as pure functions:

- `wrappers.dfy` (`Wrappers`): the `Option` and `Result` types.
- `song_attribute.dfy` (`SongAttribute`): the three-word argument parser and
  the `Token` function that inverts it.
- `format.dfy` (`Format`): the `{}` substitution of the output macro, with
  lemmas that turn a template into plain string concatenation.
- `report.dfy` (`Report`): the report pipeline. The three library calls are
  given as a `Facade` value of results. The report returns a `Run`: the
  library calls it made, in order, and how it ended. It can return a result
  after printing, end the process itself, panic, or have its argument
  refused.
- `process.dfy` (`Process`): the entry point. It maps the report's ending
  to the lines printed and the exit status.

## Behaviour to note

- Metadata without album artists ends the process with status 1 and prints
  nothing (src/main.rs:57-60).
- An absent `artists` or `title` after that check panics in `unwrap`
  (src/main.rs:62-63). So does `artists[0]` on an empty list when the artist
  is printed (src/main.rs:66, 68).

## Model

| member | source | states |
|---|---|---|
| SongAttribute.FromStr | src/main.rs:17-24 | An accepted token is exactly the word of the attribute it yields. A rejected token carries "Can't parse input" and is no attribute's word. |
| SongAttribute.FromStrToken | src/main.rs:18-21 | Round trip: parsing an attribute's word gives back that attribute. |
| SongAttribute.FromStrExact | src/main.rs:17-24 | A token parses to an attribute if and only if it equals that attribute's word. There is no case folding, prefix match or alias. |
| SongAttribute.FromStrInjective | src/main.rs:17-24 | Two accepted tokens that parse to the same attribute are the same string. |
| Format.Interpolate | src/main.rs:66-68 | A template with no arguments is printed unchanged. |
| Format.InterpolateLiteral | src/main.rs:66-68 | A brace-free prefix of a template is copied verbatim ahead of the rest of the substitution. |
| Format.InterpolateOne | src/main.rs:66-67 | `lit{}` with one argument prints `lit` followed by the argument. |
| Format.InterpolateTwo | src/main.rs:68 | `lit1{}lit2{}` with two arguments prints `lit1`, the first argument, `lit2`, then the second argument. |
| Report.Present | src/main.rs:56-69 | A printed ending returns `Ok` with exactly one line. The report exits by itself only when album artists are absent, and then with status 1. It panics only after the album-artist check has passed. |
| Report.PrintSpotifyMetadata | src/main.rs:42-70 | The library calls made are a prefix of connect, find-active, get-metadata. No call is made if and only if the argument is refused. Each call is made only after the previous one succeeded. A line is printed only after all three succeeded. An `Err` return prints nothing. Once all three succeed, the run ends exactly as the metadata step (`Present`) decides, so its exits and panics reach the pipeline unchanged. |
| Report.ParseComesFirst | src/main.rs:43-46 | A token that fails to parse ends the run with "Can't parse input" before any library call. |
| Report.FirstFailureShortCircuits | src/main.rs:45-54 | The first failing call ends the run with that step's context message and the library's error. It prints nothing, and no later call is made. |
| Report.LaterResultsIgnored | src/main.rs:45-54 | The results of calls that are never made do not change the run. |
| Report.GateClosedExits | src/main.rs:56-60 | Without album artists, the report exits with status 1, whatever the artists and title hold. |
| Report.PanicExactly | src/main.rs:62-68 | Once the album-artist check has passed, the report panics if and only if artists is absent, title is absent, or the artist is needed and the artists list is empty. Otherwise it returns. The panic is the `artists` unwrap first, then the `title` unwrap, then the index 0 into an empty list. |
| Report.GateDoesNotPreventPanic | src/main.rs:56-62 | An illustration of `Report.PanicExactly`: metadata with album artists but no artists passes the check and then panics in the `artists` unwrap. |
| Report.OutputLines | src/main.rs:65-69 | The exact lines: `♫ ` + first artist, `♫ ` + title, and `♫ ` + first artist + ` - ` + title. |
| Report.SongIgnoresArtistCount | src/main.rs:62-67 | Once the album-artist check has passed, the song line is printed whenever the artists list is present, empty or not, and the title is present. An absent artists list still panics in its unwrap. |
| Report.OnlyFirstArtistUsed | src/main.rs:66-68 | Metadata that agrees on album-artist presence, title and first artist gives the same ending. Later artists have no effect. |
| Process.RunMain | src/main.rs:33-40 | The process ends normally with status 0 if and only if the report returned `Ok`. Any printed line comes with status 0. The argument is refused if and only if it does not parse, and the refusal carries "Can't parse input". The process aborts if and only if the report panicked, and with the same reason. |
| Process.FacadeFailureExitsOne | src/main.rs:33-54 | A failure of connect, find-active or get-metadata ends the process with status 1 and no output. |
| Process.MissingAlbumArtistsExitsOne | src/main.rs:56-60 | Missing album artists end the process with status 1 and no output. |
| Process.SuccessfulReport | src/main.rs:33-70 | For each attribute's word, with all calls succeeding, album artists and title present, and artists present (and non-empty when the artist is printed), the process prints exactly that attribute's line and exits with status 0. |
| Process.PanicAborts | src/main.rs:33-70 | For each attribute's word, with all calls succeeding and album artists present, the process aborts if and only if artists is absent, title is absent, or the artist is needed and the artists list is empty. |
| Process.StatusMatchesOutput | src/main.rs:33-70 | Every ordinary ending has status 0 or 1. Status 0 comes with exactly one printed line. |

## Left out

- D-Bus and MPRIS access (`PlayerFinder::new`, `find_active`, `get_metadata`) is foreign library I/O. Only the success or failure of each call, and the metadata it returns, is modelled. The player and finder handles are opaque.
- Argument extraction by the command-line layer (`Opt::from_args`) is modelled only through the `from_str` it delegates to. The library's own message text, its exit status on refusal and its handling of a missing argument are not visible and are left out. A refusal is the distinct outcome `Refused`.
- `println!` is modelled as the returned line, without the trailing newline. A failing write to standard output, which would panic, is left out.
- The process exit status of a panic is set by the language runtime, not by this code. A panic is the distinct outcome `Aborted`.
- Format.Interpolate: models only the `{}` placeholder of the formatting macro. Escaped braces and format specifications do not occur in the program's templates.
