/**
  The material argument parser of the Bukkit command framework.

  `Parse` looks at the head of the input queue, upper-cases it and looks it up
  by exact name among the materials. Only a successful lookup removes the
  token; every failure leaves the queue as it was. `StringSuggestions` offers
  every material name in lower case, in declaration order, whatever the
  partial input. The command context `C` is carried into the errors unexamined.
 */
module MaterialArgument {
  import opened AsciiCase
  import opened Enums

  /** The failures the parser reports. */
  datatype ParseError<C> =
    | NoInputProvided(context: C)
      /** The token named no material; `input` is the token as typed, before upper-casing. */
    | MaterialParseException(input: string, context: C)

  datatype ParseResult<T, C> = Success(value: T) | Failure(error: ParseError<C>)

  /** The outcome of one parse: the result and the queue as the parser leaves it. */
  datatype Step<C> = Step(result: ParseResult<Material, C>, rest: seq<string>)

  /** `MaterialParser.parse(context, queue)`, the queue's head being `queue[0]`. */
  function Parse<C>(e: EnumType, context: C, queue: seq<string>): (r: Step<C>)
    // an empty queue fails with "no input" and is left empty
    ensures queue == [] ==> r == Step(Failure(NoInputProvided(context)), queue)
    // success exactly when the upper-cased head names a material
    ensures r.result.Success? <==> queue != [] && ToUpperCase(queue[0]) in e.names
    // success consumes the head and nothing else, and yields a material named by it
    ensures r.result.Success? ==>
      && r.rest == queue[1..]
      && e.Declares(r.result.value)
      && e.Name(r.result.value) == ToUpperCase(queue[0])
    // ... and that material is the only one with that name
    ensures r.result.Success? && e.Valid() ==>
      forall j :: 0 <= j < |e.names| && e.names[j] == ToUpperCase(queue[0]) ==>
        j == r.result.value.ordinal
    // every failure leaves the queue untouched
    ensures r.result.Failure? ==> r.rest == queue
    // an unknown name fails with the token as typed
    ensures queue != [] && r.result.Failure? ==>
      r.result.error == MaterialParseException(queue[0], context)
  {
    if queue == [] then
      Step(Failure(NoInputProvided(context)), queue)
    else
      var input := queue[0];
      match ValueOf(e, ToUpperCase(input))
      case Constant(material) => Step(Success(material), queue[1..])
      case IllegalArgumentException => Step(Failure(MaterialParseException(input, context)), queue)
  }

  /** Every name lower-cased, in order. */
  function LowerAll(names: seq<string>): (r: seq<string>)
    ensures |r| == |names|
    ensures forall i :: 0 <= i < |names| ==> r[i] == ToLowerCase(names[i])
  {
    if names == [] then [] else [ToLowerCase(names[0])] + LowerAll(names[1..])
  }

  /** `MaterialParser.stringSuggestions(context, input)`. */
  function StringSuggestions<C>(e: EnumType, context: C, input: string): (r: seq<string>)
    ensures |r| == |e.names|
    ensures forall i :: 0 <= i < |r| ==> r[i] == ToLowerCase(e.names[i])
    ensures forall i :: 0 <= i < |r| ==> NoUpper(r[i])
  {
    LowerAll(e.names)
  }

  /** Suggestions depend neither on the context nor on the partial input. */
  lemma SuggestionsIgnoreInput<C>(e: EnumType, c1: C, c2: C, input1: string, input2: string)
    ensures StringSuggestions(e, c1, input1) == StringSuggestions(e, c2, input2)
  {
  }

  /** Material names are upper-case, so no two suggestions coincide. */
  lemma SuggestionsDistinct<C>(e: EnumType, context: C, input: string)
    requires e.Valid()
    requires forall i :: 0 <= i < |e.names| ==> NoLower(e.names[i])
    ensures var s := StringSuggestions(e, context, input);
      forall i, j :: 0 <= i < j < |s| ==> s[i] != s[j]
  {
    var s := StringSuggestions(e, context, input);
    forall i, j | 0 <= i < j < |s|
      ensures s[i] != s[j]
    {
      if s[i] == s[j] {
        LowerInjectiveOnNoLower(e.names[i], e.names[j]);
        assert false;
      }
    }
  }

  /** Any spelling of a material's name, in any case, parses to that material. */
  lemma ParseAnyCase<C>(e: EnumType, context: C, m: Material, token: string, rest: seq<string>)
    requires e.Valid() && e.Declares(m)
    requires ToUpperCase(token) == e.Name(m)
    ensures Parse(e, context, [token] + rest) == Step(Success(m), rest)
  {
    var q := [token] + rest;
    assert q[0] == token && q[1..] == rest;
  }

  /**
    Matching ignores case: two head tokens with the same upper-casing either
    both fail or both yield the same material and the same remaining queue.
   */
  lemma ParseCaseInsensitive<C>(e: EnumType, context: C, a: string, b: string, rest: seq<string>)
    requires ToUpperCase(a) == ToUpperCase(b)
    ensures var ra, rb := Parse(e, context, [a] + rest), Parse(e, context, [b] + rest);
      && ra.result.Success? == rb.result.Success?
      && (ra.result.Success? ==> ra == rb)
  {
    var qa, qb := [a] + rest, [b] + rest;
    assert qa[0] == a && qa[1..] == rest;
    assert qb[0] == b && qb[1..] == rest;
  }

  /** Suggest, then parse: a suggestion parses back to its material and consumes one token. */
  lemma SuggestThenParse<C>(e: EnumType, context: C, partial: string, m: Material, suggestion: string, rest: seq<string>)
    requires e.Valid() && e.Declares(m)
    requires NoLower(e.Name(m))
    requires suggestion == StringSuggestions(e, context, partial)[m.ordinal]
    ensures Parse(e, context, [suggestion] + rest) == Step(Success(m), rest)
  {
    UpperUndoesLower(e.Name(m));
    ParseAnyCase(e, context, m, suggestion, rest);
  }

  /** The materials STONE, DIRT and AIR of the worked examples below. */
  function StoneDirtAir(): (e: EnumType)
    ensures e.Valid() && |e.names| == 3
  {
    EnumType(["STONE", "DIRT", "AIR"])
  }

  /** ["dirt", "extra"] parses to DIRT and leaves ["extra"]. */
  lemma DirtExample<C>(context: C)
    ensures Parse(StoneDirtAir(), context, ["dirt", "extra"]) == Step(Success(Material(1)), ["extra"])
  {
    var u := ToUpperCase("dirt");
    assert u == "DIRT" by {
      assert |u| == 4;
      assert forall i :: 0 <= i < 4 ==> u[i] == "DIRT"[i];
    }
    ParseAnyCase(StoneDirtAir(), context, Material(1), "dirt", ["extra"]);
    assert ["dirt"] + ["extra"] == ["dirt", "extra"];
  }

  /** ["lava"] names no material: it fails with the token and keeps the queue. */
  lemma LavaExample<C>(context: C)
    ensures Parse(StoneDirtAir(), context, ["lava"]) == Step(Failure(MaterialParseException("lava", context)), ["lava"])
  {
    var u := ToUpperCase("lava");
    assert u[0] == 'L';
    assert u != "STONE" && u != "DIRT" && u != "AIR";
  }

  /** Whatever the partial input, the suggestions are stone, dirt, air. */
  lemma SuggestionsExample<C>(context: C, partial: string)
    ensures StringSuggestions(StoneDirtAir(), context, partial) == ["stone", "dirt", "air"]
  {
    var s := StringSuggestions(StoneDirtAir(), context, partial);
    var l0, l1, l2 := ToLowerCase("STONE"), ToLowerCase("DIRT"), ToLowerCase("AIR");
    assert l0 == "stone" by { assert forall i :: 0 <= i < 5 ==> l0[i] == "stone"[i]; }
    assert l1 == "dirt" by { assert forall i :: 0 <= i < 4 ==> l1[i] == "dirt"[i]; }
    assert l2 == "air" by { assert forall i :: 0 <= i < 3 ==> l2[i] == "air"[i]; }
    assert s[0] == l0 && s[1] == l1 && s[2] == l2;
  }
}
