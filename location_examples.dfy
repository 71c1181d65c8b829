/** Worked inputs for `extractLocation`, each derived from the declarative description of the
    match rather than by running the matcher. */
module LocationExamples {
  import opened Wrappers
  import opened JsText
  import opened Location

  /** In "in Sacramento" the pattern matches at 0 as Shape(0, 9, NoCode), and no other way of matching there
      comes first. */
  lemma InSacramentoFirst(s: string)
    requires s == "in Sacramento"
    ensures ShapeMatches(s, 0, Shape(0, 9, NoCode))
    ensures forall sh :: ShapeMatches(s, 0, sh) ==> !Precedes(sh, Shape(0, 9, NoCode))
  {
    forall sh | ShapeMatches(s, 0, sh) ensures !Precedes(sh, Shape(0, 9, NoCode)) {
      MatchStart(s, 0, sh);
    }
  }

  /** "in Sacramento" yields "Sacramento". */
  lemma InSacramento(s: string)
    requires s == "in Sacramento"
    ensures ExtractLocation(s) == Some("Sacramento")
  {
    var m := Match(0, Shape(0, 9, NoCode));
    InSacramentoFirst(s);
    assert Group(s, m) == "Sacramento" by {
      assert NameStart(m.start, m.shape.prep) == 3 && End(m) == 13;
      assert s[3..13] == "Sacramento";
    }
    ExtractLocationIsFirstGroup(s, m);
  }

  /** "I live in Sacramento" has no match before "in": no word before it begins with a preposition's
      first letter. */
  lemma NoMatchBeforeIn(s: string)
    requires s == "I live in Sacramento"
    ensures forall j: nat :: j < 7 ==> NoMatchAt(s, j)
  {
    forall j: nat, sh | j < 7 && ShapeMatches(s, j, sh) ensures false {
      MatchStart(s, j, sh);
    }
  }

  /** In "I live in Sacramento" the pattern matches at 7 as Shape(0, 9, NoCode), and no other way of matching there
      comes first. */
  lemma LiveInSacramentoFirst(s: string)
    requires s == "I live in Sacramento"
    ensures ShapeMatches(s, 7, Shape(0, 9, NoCode))
    ensures forall sh :: ShapeMatches(s, 7, sh) ==> !Precedes(sh, Shape(0, 9, NoCode))
  {
    forall sh | ShapeMatches(s, 7, sh) ensures !Precedes(sh, Shape(0, 9, NoCode)) {
      MatchStart(s, 7, sh);
    }
  }

  /** The location need not open the message: the scan finds the leftmost match, "Sacramento". */
  lemma LiveInSacramento(s: string)
    requires s == "I live in Sacramento"
    ensures ExtractLocation(s) == Some("Sacramento")
  {
    var m := Match(7, Shape(0, 9, NoCode));
    LiveInSacramentoFirst(s);
    NoMatchBeforeIn(s);
    assert Group(s, m) == "Sacramento" by {
      assert NameStart(m.start, m.shape.prep) == 10 && End(m) == 20;
      assert s[10..20] == "Sacramento";
    }
    ExtractLocationIsFirstGroup(s, m);
  }

  /** In "near Temecula, CA" the pattern matches at 0 as Shape(1, 7, Code(true, true)), and no other way of matching there
      comes first. */
  lemma NearTemeculaFirst(s: string)
    requires s == "near Temecula, CA"
    ensures ShapeMatches(s, 0, Shape(1, 7, Code(true, true)))
    ensures forall sh :: ShapeMatches(s, 0, sh) ==> !Precedes(sh, Shape(1, 7, Code(true, true)))
  {
    forall sh | ShapeMatches(s, 0, sh) ensures !Precedes(sh, Shape(1, 7, Code(true, true))) {
      assert !IsLower(s[13]);
      MatchStart(s, 0, sh);
    }
  }

  /** The optional state code is taken with its comma and space: "near Temecula, CA" yields "Temecula, CA". */
  lemma NearTemecula(s: string)
    requires s == "near Temecula, CA"
    ensures ExtractLocation(s) == Some("Temecula, CA")
  {
    var m := Match(0, Shape(1, 7, Code(true, true)));
    NearTemeculaFirst(s);
    assert Group(s, m) == "Temecula, CA" by {
      assert NameStart(m.start, m.shape.prep) == 5 && End(m) == 17;
      assert s[5..17] == "Temecula, CA";
    }
    ExtractLocationIsFirstGroup(s, m);
  }

  /** In "from Fresno CAT" the pattern matches at 0 as Shape(3, 5, NoCode), and no other way of matching there
      comes first. */
  lemma FromFresnoCatFirst(s: string)
    requires s == "from Fresno CAT"
    ensures ShapeMatches(s, 0, Shape(3, 5, NoCode))
    ensures forall sh :: ShapeMatches(s, 0, sh) ==> !Precedes(sh, Shape(3, 5, NoCode))
  {
    forall sh | ShapeMatches(s, 0, sh) ensures !Precedes(sh, Shape(3, 5, NoCode)) {
      assert !IsLower(s[11]) && s[11] != ',' && !IsUpper(s[11]) && !WordBoundary(s, 14);
      MatchStart(s, 0, sh);
    }
  }

  /** The final `\b` fails after "CA" inside "CAT", so the engine backtracks out of the optional
      group: "from Fresno CAT" yields "Fresno". */
  lemma FromFresnoCat(s: string)
    requires s == "from Fresno CAT"
    ensures ExtractLocation(s) == Some("Fresno")
  {
    var m := Match(0, Shape(3, 5, NoCode));
    FromFresnoCatFirst(s);
    assert Group(s, m) == "Fresno" by {
      assert NameStart(m.start, m.shape.prep) == 5 && End(m) == 11;
      assert s[5..11] == "Fresno";
    }
    ExtractLocationIsFirstGroup(s, m);
  }

  /** No position of "In Sacramento" starts a match. */
  lemma NoMatchInCapitalIn(s: string)
    requires s == "In Sacramento"
    ensures forall j: nat :: NoMatchAt(s, j)
  {
    forall j: nat, sh | ShapeMatches(s, j, sh) ensures false {
      MatchStart(s, j, sh);
    }
  }

  /** Matching is case-sensitive: "In" is not the preposition "in", so there is no location. */
  lemma CapitalInFindsNothing(s: string)
    requires s == "In Sacramento"
    ensures ExtractLocation(s) == None
  {
    NoMatchInCapitalIn(s);
  }
}
