/**
 * The `fields` query parameter of GET /zones and GET /zones/:id: a comma
 * list of field names, some written as client-side aliases, turned into the
 * space-separated selection string handed to the document store.
 */
module FieldSelection {
  import opened Js

  /** The aliases a client may use, and the document paths they stand for. */
  const Aliases: map<string, string> := map[
    "nameEN" := "name.en",
    "welcomeMessageEN" := "welcomeMessage.en",
    "shortNameEN" := "shortName.en",
    "descriptionEN" := "description.en",
    "locationLat" := "location.latitude",
    "locationLong" := "location.longitude"
  ]

  /** A requested field through the alias table; any other name stays as it is. */
  function Translate(field: string): string
  {
    if field in Aliases then Aliases[field] else field
  }

  /**
   * No alias target is itself an alias, so translating twice is translating
   * once: which is why applying the aliases one after another (the get-by-id
   * handler) gives the same answer as choosing one of them (the list handler).
   */
  lemma TargetsAreNotAliases(field: string)
    ensures Translate(field) !in Aliases
    ensures Translate(Translate(field)) == Translate(field)
  {
  }

  /** The list handler's `else if` chain, including its two unreachable repeated branches. */
  function ListAlias(element: string): (r: string)
    ensures r == Translate(element)
  {
    if element == "nameEN" then "name.en"
    else if element == "welcomeMessageEN" then "welcomeMessage.en"
    else if element == "shortNameEN" then "shortName.en"
    else if element == "descriptionEN" then "description.en"
    else if element == "shortNameEN" then "shortName.en"
    else if element == "descriptionEN" then "description.en"
    else if element == "locationLat" then "location.latitude"
    else if element == "locationLong" then "location.longitude"
    else element
  }

  /**
   * The get-by-id handler's six independent `if`s, each of which sees the
   * element as the previous ones left it.
   */
  function ByIdAlias(element: string): (r: string)
    ensures r == Translate(element)
  {
    var e1 := if element == "nameEN" then "name.en" else element;
    var e2 := if e1 == "welcomeMessageEN" then "welcomeMessage.en" else e1;
    var e3 := if e2 == "shortNameEN" then "shortName.en" else e2;
    var e4 := if e3 == "descriptionEN" then "description.en" else e3;
    var e5 := if e4 == "locationLat" then "location.latitude" else e4;
    if e5 == "locationLong" then "location.longitude" else e5
  }

  /** The requested fields after translation. */
  function Translated(tokens: seq<string>): seq<string>
  {
    seq(|tokens|, i requires 0 <= i < |tokens| => Translate(tokens[i]))
  }

  /** Translating one more token adds its translation at the end. */
  lemma TranslatedSnoc(tokens: seq<string>, i: nat)
    requires i < |tokens|
    ensures Translated(tokens[..i + 1]) == Translated(tokens[..i]) + [Translate(tokens[i])]
  {
  }

  /** Each name followed by one space, in order. */
  function Spaced(names: seq<string>): string
  {
    if names == [] then ""
    else Spaced(names[..|names| - 1]) + (names[|names| - 1] + " ")
  }

  /** One more name adds that name and a space at the end. */
  lemma SpacedSnoc(names: seq<string>, name: string)
    ensures Spaced(names + [name]) == Spaced(names) + (name + " ")
  {
    assert (names + [name])[..|names|] == names;
  }

  /** The selection string for a `fields` parameter; empty when it is absent or empty. */
  function Projection(fields: Option<string>): string
  {
    if Given(fields) then Spaced(Translated(Split(fields.value, ','))) else ""
  }

  /** Spacing two lists one after the other is the two spaced strings concatenated. */
  lemma {:induction false} SpacedAppend(a: seq<string>, b: seq<string>)
    ensures Spaced(a + b) == Spaced(a) + Spaced(b)
  {
    if b == [] {
      assert a + b == a;
    } else {
      var n := |b| - 1;
      SpacedAppend(a, b[..n]);
      assert a + b == (a + b[..n]) + [b[n]];
      assert b == b[..n] + [b[n]];
      SpacedSnoc(a + b[..n], b[n]);
      SpacedSnoc(b[..n], b[n]);
      ConcatAssoc(Spaced(a), Spaced(b[..n]), b[n] + " ");
    }
  }

  /** The spaced string is the names joined by single spaces, with one more space at the end. */
  lemma {:induction false} SpacedIsJoin(names: seq<string>)
    ensures Spaced(names) == Join(names + [""], ' ')
  {
    if names != [] {
      var rest := names[1..];
      SpacedIsJoin(rest);
      SpacedAppend([names[0]], rest);
      assert [names[0]] + rest == names;
      assert Spaced([names[0]]) == names[0] + " ";
      assert (names + [""])[1..] == rest + [""];
    }
  }

  /**
   * Read back on its spaces, the selection string for a `fields` parameter
   * without spaces yields each requested field, translated, in request order,
   * and then the empty piece after the closing space: every field is followed
   * by exactly one space.
   */
  lemma ProjectionFields(fields: Option<string>)
    requires Given(fields) && ' ' !in fields.value
    ensures Split(Projection(fields), ' ') == Translated(Split(fields.value, ',')) + [""]
  {
    var tokens := Split(fields.value, ',');
    SplitKeepsAbsent(fields.value, ',', ' ');
    var pieces := Translated(tokens) + [""];
    forall i | 0 <= i < |pieces|
      ensures ' ' !in pieces[i]
    {
      if i < |tokens| {
        assert pieces[i] == Translate(tokens[i]);
      }
    }
    SpacedIsJoin(Translated(tokens));
    SplitJoin(pieces, ' ');
  }

  /**
   * The list handler's loop over the `fields` tokens: the string it accumulates is the
   * selection for the `fields` parameter.
   */
  method ListFieldwant(fields: Option<string>) returns (fieldwant: string)
    ensures fieldwant == Projection(fields)
  {
    fieldwant := "";
    if Given(fields) {
      var tokens := Split(fields.value, ',');
      var i := 0;
      while i < |tokens|
        invariant 0 <= i <= |tokens|
        invariant fieldwant == Spaced(Translated(tokens[..i]))
      {
        var element := ListAlias(tokens[i]);
        TranslatedSnoc(tokens, i);
        SpacedSnoc(Translated(tokens[..i]), element);
        ConcatAssoc(fieldwant, element, " ");
        fieldwant := fieldwant + element + " ";
        i := i + 1;
      }
      assert tokens[..|tokens|] == tokens;
    }
  }

  /**
   * The get-by-id handler's loop over the `fields` tokens: it accumulates the same
   * selection as the list handler for every `fields` parameter.
   */
  method ByIdFieldwant(fields: Option<string>) returns (fieldwant: string)
    ensures fieldwant == Projection(fields)
  {
    fieldwant := "";
    if Given(fields) {
      var tokens := Split(fields.value, ',');
      var i := 0;
      while i < |tokens|
        invariant 0 <= i <= |tokens|
        invariant fieldwant == Spaced(Translated(tokens[..i]))
      {
        var element := ByIdAlias(tokens[i]);
        TranslatedSnoc(tokens, i);
        SpacedSnoc(Translated(tokens[..i]), element);
        ConcatAssoc(fieldwant, element, " ");
        fieldwant := fieldwant + element + " ";
        i := i + 1;
      }
      assert tokens[..|tokens|] == tokens;
    }
  }
}
