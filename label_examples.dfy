/**
  Worked instances of label cleaning and vegetable detection on
  PlantVillage directory names.  A fact about a concrete string is
  obtained by cutting the string at a character the pattern lacks, so
  that each piece is shorter than the pattern or misses one of its
  characters.  The concrete strings are passed to the steps as
  parameters, which keeps each proof obligation small.
*/
module LabelExamples {
  import opened Wrappers
  import opened Text
  import opened Labels

  // ---- proof steps

  lemma ShortAbsent(s: string, sub: string)
    requires |s| < |sub|
    ensures !Contains(s, sub)
  {}

  lemma StripNone(s: string, c: char)
    requires s == [] || (s[0] != c && s[|s| - 1] != c)
    ensures Strip(s, c) == s
  {}

  lemma LowerWord(c: char, t: string, w: string, lw: string)
    requires NoUpper(t) && w == [c] + t && lw == [LowerChar(c)] + t
    ensures Lower(w) == lw
  { LowerCapitalised(c, t); }

  lemma LowerJoin(w: string, a: string, b: string, r: string)
    requires w == a + b && r == Lower(a) + Lower(b)
    ensures Lower(w) == r
  { LowerConcat(a, b); }

  lemma NoneAcross(s: string, a: string, c: char, b: string, sub: string)
    requires s == a + [c] + b && c !in sub && !Contains(a, sub) && !Contains(b, sub)
    ensures !Contains(s, sub)
  { ContainsAcross(a, c, b, sub); }

  lemma ReplaceAcross(s: string, a: string, c: char, b: string, pat: string, rep: string, r: string)
    requires |pat| > 0 && c !in pat && s == a + [c] + b
    requires r == ReplaceAll(a, pat, rep) + [c] + ReplaceAll(b, pat, rep)
    ensures ReplaceAll(s, pat, rep) == r
  { ReplaceAllAcross(a, c, b, pat, rep); }

  lemma ReplaceFront(s: string, pat: string, t: string, rep: string, r: string)
    requires |pat| > 0 && s == pat + t && r == rep + ReplaceAll(t, pat, rep)
    ensures ReplaceAll(s, pat, rep) == r
  { ReplaceAllAtFront(pat, t, rep); }

  lemma ReplaceNoneMissing(s: string, pat: string, rep: string, c: char)
    requires |pat| > 0 && c in pat && c !in s
    ensures ReplaceAll(s, pat, rep) == s
  { MissingChar(s, pat, c); ReplaceAllNoMatch(s, pat, rep); }

  lemma RemoveSteps(name: string, veg: string, s1: string, s2: string, s3: string)
    requires ReplaceAll(name, veg + "___", "") == s1
    requires ReplaceAll(s1, veg + "__", "") == s2
    requires ReplaceFirst(s2, veg + "_", "") == s3
    ensures RemoveVeggie(name, veg) == s3
  {}

  lemma CollapseSteps(s: string, s1: string, s2: string, r: string)
    requires ReplaceAll(s, "___", "_") == s1
    requires ReplaceAll(s1, "__", "_") == s2
    requires Strip(s2, '_') == r
    ensures CollapseSeparators(s) == r
  {}

  lemma CleanSteps(className: string, veggieType: string, name: string, veg: string, s: string, r: string)
    requires Lower(className) == name && Lower(veggieType) == veg
    requires RemoveVeggie(name, veg) == s && CollapseSeparators(s) == r
    ensures CleanClassName(className, veggieType) == r
  {}


  // ---- lower-casing of the capitalised words used below, one literal per lemma
  lemma LowerPotatoAt(w: string, r: string)
    requires w == "Potato" && r == "potato"
    ensures Lower(w) == r
  { LowerWord('P', "otato", w, r); }

  lemma LowerTomatoAt(w: string, r: string)
    requires w == "Tomato" && r == "tomato"
    ensures Lower(w) == r
  { LowerWord('T', "omato", w, r); }

  lemma LowerPepperAt(w: string, r: string)
    requires w == "Pepper" && r == "pepper"
    ensures Lower(w) == r
  { LowerWord('P', "epper", w, r); }

  lemma LowerEarlyBlightAt(w: string, r: string)
    requires w == "Early_blight" && r == "early_blight"
    ensures Lower(w) == r
  { LowerWord('E', "arly_blight", w, r); }

  lemma LowerTomatoPrefixAt(w: string, r: string)
    requires w == "Tomato___" && r == "tomato___"
    ensures Lower(w) == r
  { LowerWord('T', "omato___", w, r); }

  lemma LowerUnknownPrefixAt(w: string, r: string)
    requires w == "Unknown_" && r == "unknown_"
    ensures Lower(w) == r
  { LowerWord('U', "nknown_", w, r); }

  lemma LowerMysteryPrefixAt(w: string, r: string)
    requires w == "Mystery_" && r == "mystery_"
    ensures Lower(w) == r
  { LowerWord('M', "ystery_", w, r); }

  lemma LowerLeafAt(w: string, r: string)
    requires w == "Leaf" && r == "leaf"
    ensures Lower(w) == r
  { LowerWord('L', "eaf", w, r); }

  lemma LowerPepperBellHealthyAt(w: string, r: string)
    requires w == "Pepper__bell___healthy" && r == "pepper__bell___healthy"
    ensures Lower(w) == r
  { LowerWord('P', "epper__bell___healthy", w, r); }

  // ---- Tomato___Early_blight

  lemma NoDoubleInBlight() ensures !Contains("_blight", "__")
  { MissingChar("light", "__", '_'); NoneAcross("_blight", "_", 'b', "light", "__"); }

  lemma EarlyBlightIsClean()
    ensures IsCleanLabel("early_blight", "tomato")
  {
    NoDoubleInBlight();
    MissingChar("earl", "__", '_');
    NoneAcross("early_blight", "earl", 'y', "_blight", "__");
    MissingChar("early_blight", "tomato" + "_", 'o');
  }

  lemma CleanTomatoTailAt(veg: string, tail: string)
    requires veg == "Tomato" && tail == "Early_blight"
    ensures IsCleanLabel(Lower(tail), Lower(veg))
  {
    LowerTomatoAt(veg, "tomato");
    LowerEarlyBlightAt(tail, "early_blight");
    EarlyBlightIsClean();
  }

  lemma CleanTomatoAt(w: string, veg: string, tail: string, r: string)
    requires w == "Tomato___Early_blight" && veg == "Tomato" && tail == "Early_blight" && r == "early_blight"
    ensures CleanClassName(w, veg) == r
  {
    CleanTomatoTailAt(veg, tail);
    LowerEarlyBlightAt(tail, r);
    assert w == veg + "___" + tail;
    CleanStripsTriplePrefix(veg, tail);
  }

  /** The example given with `clean_class_name`: the vegetable prefix goes, the label is lower-cased. */
  lemma CleanTomatoEarlyBlight()
    ensures CleanClassName("Tomato___Early_blight", "Tomato") == "early_blight"
  { CleanTomatoAt("Tomato___Early_blight", "Tomato", "Early_blight", "early_blight"); }

  // ---- Pepper__bell___healthy

  lemma PepperNoTripleAt(s: string, a: string, b: string, pat: string)
    requires s == "pepper__bell___healthy" && a == "pepper__" && b == "ell___healthy" && pat == "pepper___"
    ensures ReplaceAll(s, pat, "") == s
  {
    ReplaceAllShort(a, pat, "");
    ReplaceNoneMissing(b, pat, "", 'p');
    ReplaceAcross(s, a, 'b', b, pat, "", s);
  }

  lemma PepperDoubleAt(s: string, t: string, pat: string)
    requires s == "pepper__bell___healthy" && t == "bell___healthy" && pat == "pepper__"
    ensures ReplaceAll(s, pat, "") == t
  {
    ReplaceNoneMissing(t, pat, "", 'p');
    ReplaceFront(s, pat, t, "", t);
  }

  lemma RemovePepperAt(s: string, veg: string, t: string)
    requires s == "pepper__bell___healthy" && veg == "pepper" && t == "bell___healthy"
    ensures RemoveVeggie(s, veg) == t
  {
    PepperNoTripleAt(s, "pepper__", "ell___healthy", veg + "___");
    PepperDoubleAt(s, t, veg + "__");
    MissingChar(t, veg + "_", 'p');
    RemoveSteps(s, veg, s, t, t);
  }

  lemma RemovePepper()
    ensures RemoveVeggie("pepper__bell___healthy", "pepper") == "bell___healthy"
  { RemovePepperAt("pepper__bell___healthy", "pepper", "bell___healthy"); }

  lemma BellTripleAt(s: string, a: string, b: string, pat: string, r: string)
    requires s == "bell___healthy" && a == "bel" && b == "healthy" && pat == "___" && r == "bell_healthy"
    ensures ReplaceAll(s, pat, "_") == r
  {
    ReplaceNoneMissing(a, pat, "_", '_');
    ReplaceNoneMissing(b, pat, "_", '_');
    ReplaceFront(pat + b, pat, b, "_", "_" + b);
    ReplaceAcross(s, a, 'l', pat + b, pat, "_", r);
  }

  lemma BellTriple()
    ensures ReplaceAll("bell___healthy", "___", "_") == "bell_healthy"
  { BellTripleAt("bell___healthy", "bel", "healthy", "___", "bell_healthy"); }

  lemma BellNoDouble()
    ensures !Contains("bell_healthy", "__")
  {
    MissingChar("bel", "__", '_');
    ShortAbsent("_", "__");
    NoneAcross("bell_", "bel", 'l', "_", "__");
    MissingChar("ealthy", "__", '_');
    NoneAcross("bell_healthy", "bell_", 'h', "ealthy", "__");
  }

  lemma CollapseBell()
    ensures CollapseSeparators("bell___healthy") == "bell_healthy"
  {
    BellTriple();
    BellNoDouble();
    ReplaceAllNoMatch("bell_healthy", "__", "_");
    StripNone("bell_healthy", '_');
    CollapseSteps("bell___healthy", "bell_healthy", "bell_healthy", "bell_healthy");
  }

  /**
    The pepper directories keep "bell": `pepper__` is removed, and the
    triple underscore after "bell" is only shortened to one.
  */
  lemma CleanPepperBellHealthy()
    ensures CleanClassName("Pepper__bell___healthy", "Pepper") == "bell_healthy"
  {
    LowerPepperBellHealthyAt("Pepper__bell___healthy", "pepper__bell___healthy");
    LowerPepperAt("Pepper", "pepper");
    RemovePepper(); CollapseBell();
    CleanSteps("Pepper__bell___healthy", "Pepper", "pepper__bell___healthy", "pepper", "bell___healthy", "bell_healthy");
  }

  // ---- a_____b
  lemma FiveToThreeAt(s: string, t: string, u: string, pat: string, r: string)
    requires s == "a_____b" && t == "_____b" && u == "__b" && pat == "___" && r == "a___b"
    ensures ReplaceAll(s, pat, "_") == r
  {
    ReplaceAllShort("__", pat, "_");
    ReplaceAllShort([], pat, "_");
    ReplaceAcross(u, "__", 'b', [], pat, "_", u);
    ReplaceFront(t, pat, u, "_", "_" + u);
    ReplaceAllShort([], pat, "_");
    ReplaceAcross(s, [], 'a', t, pat, "_", r);
  }

  lemma ThreeToTwoAt(s: string, t: string, u: string, pat: string, r: string)
    requires s == "a___b" && t == "___b" && u == "_b" && pat == "__" && r == "a__b"
    ensures ReplaceAll(s, pat, "_") == r
  {
    ReplaceAllShort("_", pat, "_");
    ReplaceAllShort([], pat, "_");
    ReplaceAcross(u, "_", 'b', [], pat, "_", u);
    ReplaceFront(t, pat, u, "_", "_" + u);
    ReplaceAcross(s, [], 'a', t, pat, "_", r);
  }

  lemma KeepWithoutVeggieAt(s: string, veg: string)
    requires NoUpper(s) && veg == "x" && 'x' !in s
    ensures Lower(s) == s && Lower(veg) == veg && RemoveVeggie(s, veg) == s
  {
    LowerOfLower(s);
    LowerOfLower(veg);
    MissingChar(s, veg + "_", 'x');
    RemoveVeggieWithoutToken(s, veg);
  }

  lemma CleanFiveAt(s: string, veg: string, r: string)
    requires s == "a_____b" && veg == "x" && r == "a__b"
    ensures CleanClassName(s, veg) == r
  {
    KeepWithoutVeggieAt(s, veg);
    FiveToThreeAt(s, "_____b", "__b", "___", "a___b");
    ThreeToTwoAt("a___b", "___b", "_b", "__", r);
    StripNone(r, '_');
    CollapseSteps(s, "a___b", r, r);
    CleanSteps(s, veg, s, veg, s, r);
  }

  /** Five underscores in a row become two: `___` -> `_` leaves three, `__` -> `_` then leaves two. */
  lemma CleanLeavesDoubledUnderscore()
    ensures CleanClassName("a_____b", "x") == "a__b"
  { CleanFiveAt("a_____b", "x", "a__b"); }

  lemma TwoNoTripleAt(s: string, u: string, pat: string)
    requires s == "a__b" && u == "__b" && pat == "___"
    ensures ReplaceAll(s, pat, "_") == s
  {
    ShortAbsent("__", pat);
    ShortAbsent([], pat);
    NoneAcross(u, "__", 'b', [], pat);
    NoneAcross(s, [], 'a', u, pat);
    ReplaceAllNoMatch(s, pat, "_");
  }

  lemma TwoToOneAt(s: string, u: string, pat: string, r: string)
    requires s == "a__b" && u == "__b" && pat == "__" && r == "a_b"
    ensures ReplaceAll(s, pat, "_") == r
  {
    ReplaceAllShort("b", pat, "_");
    ReplaceFront(u, pat, "b", "_", "_b");
    ReplaceAllShort([], pat, "_");
    ReplaceAcross(s, [], 'a', u, pat, "_", r);
  }

  lemma CleanTwoAt(s: string, veg: string, r: string)
    requires s == "a__b" && veg == "x" && r == "a_b"
    ensures CleanClassName(s, veg) == r
  {
    KeepWithoutVeggieAt(s, veg);
    TwoNoTripleAt(s, "__b", "___");
    TwoToOneAt(s, "__b", "__", r);
    StripNone(r, '_');
    CollapseSteps(s, s, r, r);
    CleanSteps(s, veg, s, veg, s, r);
  }

  /** Hence cleaning is not idempotent: a second pass shortens the run again. */
  lemma CleanIsNotIdempotent()
    ensures CleanClassName(CleanClassName("a_____b", "x"), "x") != CleanClassName("a_____b", "x")
  {
    CleanLeavesDoubledUnderscore();
    CleanTwoAt("a__b", "x", "a_b");
  }

  // ---- get_veggie_type
  lemma VeggieIsSecond(name: string)
    requires !NamesVeggie(name, "Potato") && NamesVeggie(name, "Tomato")
    ensures GetVeggieType(name) == Some("Tomato")
  {
    assert Veggies[0] == "Potato" && Veggies[1] == "Tomato";
  }

  lemma VeggieIsNone(name: string)
    requires !NamesVeggie(name, "Potato") && !NamesVeggie(name, "Tomato") && !NamesVeggie(name, "Pepper")
    ensures GetVeggieType(name) == None
  {
    assert Veggies == ["Potato", "Tomato", "Pepper"];
  }



  lemma LowerTomatoEarlyBlightAt(w: string, a: string, b: string, r: string)
    requires w == "Tomato___Early_blight" && a == "Tomato___" && b == "Early_blight" && r == "tomato___early_blight"
    ensures Lower(w) == r
  {
    LowerTomatoPrefixAt(a, "tomato___");
    LowerEarlyBlightAt(b, "early_blight");
    LowerJoin(w, a, b, r);
  }

  lemma TomatoEarlyBlightNamesAt(w: string, name: string, p: string, t: string)
    requires w == "Tomato___Early_blight" && name == "tomato___early_blight" && p == "Potato" && t == "Tomato"
    ensures !NamesVeggie(w, p) && NamesVeggie(w, t)
  {
    LowerTomatoEarlyBlightAt(w, "Tomato___", "Early_blight", name);
    LowerPotatoAt("Potato", "potato");
    LowerTomatoAt("Tomato", "tomato");
    MissingChar(name, Lower(p), 'p');
    assert OccursAt(name, Lower(t), 0);
  }

  /** A tomato directory: "potato" does not occur in it, "tomato" does. */
  lemma VeggieOfTomatoEarlyBlight()
    ensures GetVeggieType("Tomato___Early_blight") == Some("Tomato")
  {
    TomatoEarlyBlightNamesAt("Tomato___Early_blight", "tomato___early_blight", "Potato", "Tomato");
    VeggieIsSecond("Tomato___Early_blight");
  }


  lemma LowerMysteryLeafAt(w: string, b: string, c: string, r: string)
    requires w == "Mystery_Leaf" && b == "Mystery_" && c == "Leaf" && r == "mystery_leaf"
    ensures Lower(w) == r
  {
    LowerMysteryPrefixAt("Mystery_", "mystery_");
    LowerLeafAt("Leaf", "leaf");
    LowerJoin(w, b, c, r);
  }

  lemma LowerUnknownAt(w: string, a: string, b: string, r: string, lb: string)
    requires w == "Unknown_Mystery_Leaf" && a == "Unknown_" && b == "Mystery_Leaf"
    requires r == "unknown_mystery_leaf" && lb == "mystery_leaf"
    ensures Lower(w) == r
  {
    LowerUnknownPrefixAt(a, "unknown_");
    LowerMysteryLeafAt(b, "Mystery_", "Leaf", lb);
    LowerJoin(w, a, b, r);
  }

  lemma NoTomatoInUnknownAt(name: string, a: string, b: string, sub: string)
    requires name == "unknown_mystery_leaf" && a == "mystery" && b == "leaf" && sub == "tomato"
    ensures !Contains(name, sub)
  {
    MissingChar(a, sub, 'o');
    ShortAbsent(b, sub);
    NoneAcross(a + "_" + b, a, '_', b, sub);
    MissingChar("unknown", sub, 't');
    NoneAcross(name, "unknown", '_', a + "_" + b, sub);
  }

  lemma UnknownNoPAt(w: string, name: string, p: string, q: string)
    requires w == "Unknown_Mystery_Leaf" && name == "unknown_mystery_leaf"
    requires p == "Potato" && q == "Pepper"
    ensures !NamesVeggie(w, p) && !NamesVeggie(w, q)
  {
    LowerUnknownAt(w, "Unknown_", "Mystery_Leaf", name, "mystery_leaf");
    LowerPotatoAt(p, "potato");
    LowerPepperAt(q, "pepper");
    MissingChar(name, "potato", 'p');
    MissingChar(name, "pepper", 'p');
  }

  lemma UnknownNoTomatoAt(w: string, name: string, t: string)
    requires w == "Unknown_Mystery_Leaf" && name == "unknown_mystery_leaf" && t == "Tomato"
    ensures !NamesVeggie(w, t)
  {
    LowerUnknownAt(w, "Unknown_", "Mystery_Leaf", name, "mystery_leaf");
    LowerTomatoAt(t, "tomato");
    NoTomatoInUnknownAt(name, "mystery", "leaf", "tomato");
  }

  /** A directory naming no known vegetable has no type, so it is skipped. */
  lemma VeggieOfUnknownMysteryLeaf()
    ensures GetVeggieType("Unknown_Mystery_Leaf") == None
  {
    UnknownNoPAt("Unknown_Mystery_Leaf", "unknown_mystery_leaf", "Potato", "Pepper");
    UnknownNoTomatoAt("Unknown_Mystery_Leaf", "unknown_mystery_leaf", "Tomato");
    VeggieIsNone("Unknown_Mystery_Leaf");
  }

  lemma LowerVeggiesAt(p: string, t: string, q: string, lp: string, lt: string, lq: string)
    requires p == "Potato" && t == "Tomato" && q == "Pepper"
    requires lp == "potato" && lt == "tomato" && lq == "pepper"
    ensures Lower(p) == lp && Lower(t) == lt && Lower(q) == lq
  {
    LowerPotatoAt(p, lp);
    LowerTomatoAt(t, lt);
    LowerPepperAt(q, lq);
  }




  lemma VeggieIsThird(name: string)
    requires !NamesVeggie(name, "Potato") && !NamesVeggie(name, "Tomato") && NamesVeggie(name, "Pepper")
    ensures GetVeggieType(name) == Some("Pepper")
  {
    assert Veggies[0] == "Potato" && Veggies[1] == "Tomato" && Veggies[2] == "Pepper";
  }

  lemma PepperNamesAt(w: string, name: string, p: string, t: string, q: string)
    requires w == "Pepper__bell___healthy" && name == "pepper__bell___healthy"
    requires p == "Potato" && t == "Tomato" && q == "Pepper"
    ensures !NamesVeggie(w, p) && !NamesVeggie(w, t) && NamesVeggie(w, q)
  {
    LowerPepperBellHealthyAt(w, name);
    LowerVeggiesAt(p, t, q, "potato", "tomato", "pepper");
    MissingChar(name, "potato", 'o');
    MissingChar(name, "tomato", 'o');
    assert OccursAt(name, "pepper", 0);
  }

  /** A pepper directory: neither earlier entry of the list occurs in it. */
  lemma VeggieOfPepperBellHealthy()
    ensures GetVeggieType("Pepper__bell___healthy") == Some("Pepper")
  {
    PepperNamesAt("Pepper__bell___healthy", "pepper__bell___healthy", "Potato", "Tomato", "Pepper");
    VeggieIsThird("Pepper__bell___healthy");
  }
}
