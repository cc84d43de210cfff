/** The command token of the player report: which part of the current
    track to print. Parsing is an exact, case-sensitive lookup over three
    literal words; every other string is rejected with a fixed message. */
module SongAttribute {
  import opened Wrappers

  /** What the user asked to see. */
  datatype Attribute = Artist | Song | Both

  /** The message every rejected token carries. */
  const ParseError: string := "Can't parse input"

  /** The literal word that selects each attribute. */
  function Token(a: Attribute): string
  {
    match a
    case Artist => "artist"
    case Song => "song"
    case Both => "both"
  }

  /** Parses a command-line token. Accepted tokens are exactly the words
      `Token` produces; anything else fails with `ParseError`. */
  function FromStr(val: string): (r: Result<Attribute, string>)
    ensures r.Ok? ==> Token(r.value) == val
    ensures r.Err? ==> r.error == ParseError && forall a :: Token(a) != val
  {
    if val == "artist" then Ok(Artist)
    else if val == "song" then Ok(Song)
    else if val == "both" then Ok(Both)
    else Err(ParseError)
  }

  /** Printing an attribute's word and parsing it back gives the attribute. */
  lemma FromStrToken(a: Attribute)
    ensures FromStr(Token(a)) == Ok(a)
  {
  }

  /** A token is accepted as `a` exactly when it is `a`'s word: no case
      folding, prefixes or aliases. */
  lemma FromStrExact(val: string, a: Attribute)
    ensures FromStr(val) == Ok(a) <==> val == Token(a)
  {
  }

  /** Two accepted tokens that parse to the same attribute are the same string. */
  lemma FromStrInjective(v1: string, v2: string)
    requires FromStr(v1).Ok?
    requires FromStr(v1) == FromStr(v2)
    ensures v1 == v2
  {
  }
}
