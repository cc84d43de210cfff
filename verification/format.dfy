/** The part of the output formatting macro the report uses: a template
    whose `{}` placeholders are replaced, left to right, by the arguments
    as written. */
module Format {

  /** Number of `{}` placeholders in a template. */
  function Placeholders(template: string): nat
    decreases |template|
  {
    if |template| == 0 then 0
    else if |template| >= 2 && template[0] == '{' && template[1] == '}' then
      1 + Placeholders(template[2..])
    else Placeholders(template[1..])
  }

  /** True when the text holds no opening brace, so it is copied verbatim. */
  predicate Literal(text: string)
  {
    forall i :: 0 <= i < |text| ==> text[i] != '{'
  }

  /** Substitutes `args` for the placeholders of `template`, in order. The
      macro refuses at compile time a call whose argument count differs
      from the placeholder count, hence the precondition. */
  function Interpolate(template: string, args: seq<string>): (r: string)
    requires Placeholders(template) == |args|
    ensures |args| == 0 ==> r == template
    decreases |template|
  {
    if |template| == 0 then ""
    else if |template| >= 2 && template[0] == '{' && template[1] == '}' then
      args[0] + Interpolate(template[2..], args[1..])
    else
      [template[0]] + Interpolate(template[1..], args)
  }

  /** A literal prefix contributes no placeholders. */
  lemma {:induction false} PlaceholdersLiteral(lit: string, rest: string)
    requires Literal(lit)
    ensures Placeholders(lit + rest) == Placeholders(rest)
    decreases |lit|
  {
    if |lit| > 0 {
      assert (lit + rest)[1..] == lit[1..] + rest;
      PlaceholdersLiteral(lit[1..], rest);
    } else {
      assert lit + rest == rest;
    }
  }

  /** A literal prefix is copied to the output unchanged, ahead of the
      interpolation of what follows it. */
  lemma {:induction false} InterpolateLiteral(lit: string, rest: string, args: seq<string>)
    requires Literal(lit)
    requires Placeholders(rest) == |args|
    ensures Placeholders(lit + rest) == |args|
    ensures Interpolate(lit + rest, args) == lit + Interpolate(rest, args)
    decreases |lit|
  {
    PlaceholdersLiteral(lit, rest);
    if |lit| > 0 {
      var t := lit + rest;
      assert t[0] == lit[0] && t[1..] == lit[1..] + rest;
      PlaceholdersLiteral(lit[1..], rest);
      InterpolateLiteral(lit[1..], rest, args);
      calc {
        Interpolate(t, args);
        [t[0]] + Interpolate(t[1..], args);
        [lit[0]] + (lit[1..] + Interpolate(rest, args));
        { assert lit == [lit[0]] + lit[1..]; }
        lit + Interpolate(rest, args);
      }
    } else {
      assert lit + rest == rest;
    }
  }

  /** A template of one literal, a placeholder, a second literal and a
      second placeholder reads as the two literals with the two arguments
      after each. */
  lemma InterpolateTwo(lit1: string, lit2: string, a: string, b: string)
    requires Literal(lit1) && Literal(lit2)
    ensures Placeholders(lit1 + "{}" + lit2 + "{}") == 2
    ensures Interpolate(lit1 + "{}" + lit2 + "{}", [a, b]) == lit1 + a + lit2 + b
  {
    var tail := lit2 + "{}";
    InterpolateLiteral(lit2, "{}", [b]);
    assert ("{}" + tail)[2..] == tail;
    assert lit1 + "{}" + lit2 + "{}" == lit1 + ("{}" + tail);
    InterpolateLiteral(lit1, "{}" + tail, [a, b]);
    assert [a, b][1..] == [b];
  }

  /** A template of one literal followed by one placeholder reads as the
      literal followed by the argument. */
  lemma InterpolateOne(lit: string, a: string)
    requires Literal(lit)
    ensures Placeholders(lit + "{}") == 1
    ensures Interpolate(lit + "{}", [a]) == lit + a
  {
    InterpolateLiteral(lit, "{}", [a]);
  }
}
