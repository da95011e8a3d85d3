/** The interest-form submission (InterestFormSubmission): the sixteen form fields, the normalisation its
    constructor applies to them, the id and the error list that AddId, AddError and AddErrors change. */
module Submissions {
  import opened Strings

  /** The form fields, in the order of the constructor's parameters. */
  datatype Form = Form(
    isInterestedOutboundStudent: bool,
    isInterestedInHosting: bool,
    submissionQuestion: string,
    name: string,
    age: string,
    gender: string,
    email: string,
    phone: string,
    countryOfResidence: string,
    state: string,
    city: string,
    zipcode: string,
    countryChoiceOne: string,
    countryChoiceTwo: string,
    countryChoiceThree: string,
    countryChoiceFour: string)

  /** What a submission amounts to at one moment: the document written to the store. */
  datatype SubmissionRecord = SubmissionRecord(id: string, form: Form, errors: seq<string>)

  const UsaAliases: set<string> := {"unitedstatesofamerica", "us", "unitedstates", "america"}
  const UkAliases: set<string> := {"britian", "unitedkingdom", "england"}

  /** The replacement chain applied to the country of residence before the alias table:
      Trim, ToLower, then Replace of "the ", "." and " " by the empty string. */
  function Squeeze(country: string): (r: string)
    ensures ' ' !in r && '.' !in r
    ensures forall i :: 0 <= i < |r| ==> !IsAsciiUpper(r[i])
    ensures |r| <= |Trim(country)|
  {
    var lowered := ToLower(Trim(country));
    var a := RemoveAll(lowered, "the ");
    var b := RemoveAll(a, ".");
    var r := RemoveAll(b, " ");
    assert forall c :: c in r ==> c in lowered;
    assert forall i :: 0 <= i < |r| ==> !IsAsciiUpper(r[i]) by {
      forall i | 0 <= i < |r| ensures !IsAsciiUpper(r[i]) {
        assert r[i] in lowered;
      }
    }
    r
  }

  /** The alias table: spellings of the United States become "usa", of the United Kingdom "uk". */
  function Alias(token: string): (r: string)
    ensures ' ' !in token && '.' !in token ==> ' ' !in r && '.' !in r
    ensures (forall i :: 0 <= i < |token| ==> !IsAsciiUpper(token[i])) ==>
      forall i :: 0 <= i < |r| ==> !IsAsciiUpper(r[i])
    ensures token in UsaAliases ==> r == "usa"
    ensures token in UkAliases ==> r == "uk"
    ensures token !in UsaAliases + UkAliases ==> r == token
    ensures r !in UsaAliases + UkAliases
    ensures r == "usa" || r == "uk" || r == token
  {
    if token in UsaAliases then "usa" else if token in UkAliases then "uk" else token
  }

  /** The country of residence as the constructor stores it. */
  function CanonicalCountry(country: string): (r: string)
    ensures ' ' !in r && '.' !in r
    ensures forall i :: 0 <= i < |r| ==> !IsAsciiUpper(r[i])
  {
    Alias(Squeeze(country))
  }

  /** "US" becomes "usa": the capitals are lowered and the token is an alias of the United States. */
  lemma CanonicalUs()
    ensures CanonicalCountry("US") == "usa"
  {
    UsSqueezed();
  }

  lemma UsSqueezed()
    ensures Squeeze("US") == "us"
  {
    UsLowered();
    RemoveAllAbsent("us", "the ", 't');
    RemoveAllAbsent("us", ".", '.');
    RemoveAllAbsent("us", " ", ' ');
  }

  lemma UsLowered()
    ensures Trim("US") == "US" && ToLower("US") == "us"
  {
    assert NoEdgeWhiteSpace("US");
    var l := ToLower("US");
    assert l[0] == 'u' && l[1] == 's';
  }

  /** "The United States." becomes "usa": lowered, "the " and the dot and the space removed, it is an
      alias of the United States. */
  lemma CanonicalTheUnitedStates()
    ensures CanonicalCountry("The United States.") == "usa"
  {
    TheUnitedStatesLowered();
    TheRemoved();
    DotRemoved();
    SpaceRemoved();
  }

  lemma TheRemoved()
    ensures RemoveAll("the united states.", "the ") == "united states."
  {
    assert "the united states."[..4] == "the ";
    assert "the united states."[4..] == "united states.";
    RemoveAllAbsent("united states.", "the ", 'h');
  }

  lemma DotRemoved()
    ensures RemoveAll("united states.", ".") == "united states"
  {
    assert "united states." == "united states" + ['.'] + [];
    RemoveOneChar("united states", [], '.');
  }

  lemma SpaceRemoved()
    ensures RemoveAll("united states", " ") == "unitedstates"
  {
    var a, b := "united", "states";
    assert "united states" == a + [' '] + b;
    assert ' ' !in a && ' ' !in b;
    RemoveOneChar(a, b, ' ');
    UnitedStatesJoined();
  }

  lemma UnitedStatesJoined()
    ensures "united" + "states" == "unitedstates"
  {
  }

  lemma TheUnitedStatesLowered()
    ensures Trim("The United States.") == "The United States."
    ensures ToLower("The United States.") == "the united states."
  {
    assert NoEdgeWhiteSpace("The United States.");
    var l := ToLower("The United States.");
    forall i | 0 <= i < 18
      ensures l[i] == "the united states."[i]
    {
    }
  }

  /** A token without white space at its ends, any ASCII capital, space or dot is kept as it is by the
      replacement chain. */
  lemma SqueezeKeepsCanonical(c: string)
    requires NoEdgeWhiteSpace(c) && ' ' !in c && '.' !in c
    requires forall i :: 0 <= i < |c| ==> !IsAsciiUpper(c[i])
    ensures Squeeze(c) == c
  {
    var lowered := ToLower(Trim(c));
    assert lowered == c by {
      assert Trim(c) == c;
    }
    RemoveAllAbsent(c, "the ", ' ');
    RemoveAllAbsent(c, ".", '.');
    RemoveAllAbsent(c, " ", ' ');
  }

  /** Canonicalising twice gives the same token exactly when the canonical token has no white space at
      either end. A tab, line break or other non-space white space left at an end by the removal of dots
      is trimmed by the second pass: "a\t." becomes "a\t" and then "a". */
  lemma CanonicalIdempotentIff(country: string)
    ensures CanonicalCountry(CanonicalCountry(country)) == CanonicalCountry(country)
        <==> NoEdgeWhiteSpace(CanonicalCountry(country))
  {
    var c := CanonicalCountry(country);
    if NoEdgeWhiteSpace(c) {
      assert c !in UsaAliases + UkAliases;
      CanonicalFixes(c);
    } else {
      CanonicalMoves(c);
    }
  }

  /** A canonical token is its own canonical form. */
  lemma CanonicalFixes(c: string)
    requires NoEdgeWhiteSpace(c) && ' ' !in c && '.' !in c
    requires forall i :: 0 <= i < |c| ==> !IsAsciiUpper(c[i])
    requires c !in UsaAliases + UkAliases
    ensures CanonicalCountry(c) == c
  {
    SqueezeKeepsCanonical(c);
  }

  /** A token with white space at an end is not its own canonical form. */
  lemma CanonicalMoves(c: string)
    requires !NoEdgeWhiteSpace(c)
    ensures CanonicalCountry(c) != c
  {
    assert NoEdgeWhiteSpace("usa") && NoEdgeWhiteSpace("uk") by {
      WhiteSpaceRange('u');
      WhiteSpaceRange('a');
      WhiteSpaceRange('k');
    }
    assert |Squeeze(c)| < |c| by {
      assert |Trim(c)| < |c|;
    }
  }

  /** With the plain space as its only white space, a country of residence canonicalises idempotently. */
  lemma CanonicalIdempotent(country: string)
    requires forall i :: 0 <= i < |country| ==> IsWhiteSpace(country[i]) ==> country[i] == ' '
    ensures CanonicalCountry(CanonicalCountry(country)) == CanonicalCountry(country)
  {
    var sq := Squeeze(country);
    SqueezeHasNoWhiteSpace(country);
    var c := CanonicalCountry(country);
    if c == sq {
      if c != [] {
        assert c[0] in sq && c[|c| - 1] in sq;
      }
    } else {
      WhiteSpaceRange('u');
      WhiteSpaceRange('a');
      WhiteSpaceRange('k');
    }
    CanonicalIdempotentIff(country);
  }

  /** Without white space other than the plain space, the replacement chain leaves no white space. */
  lemma SqueezeHasNoWhiteSpace(country: string)
    requires forall i :: 0 <= i < |country| ==> IsWhiteSpace(country[i]) ==> country[i] == ' '
    ensures forall ch :: ch in Squeeze(country) ==> !IsWhiteSpace(ch)
  {
    var t := Trim(country);
    var lowered := ToLower(t);
    var a := RemoveAll(lowered, "the ");
    var b := RemoveAll(a, ".");
    var sq := RemoveAll(b, " ");
    assert sq == Squeeze(country);
    forall ch | ch in sq
      ensures !IsWhiteSpace(ch)
    {
      RemoveAllKeeps(b, " ", ch);
      RemoveAllKeeps(a, ".", ch);
      RemoveAllKeeps(lowered, "the ", ch);
      LoweredSpacesOnly(country, ch);
      assert ch != ' ';
    }
  }

  /** Lowering the trimmed country introduces no white space other than the plain space. */
  lemma LoweredSpacesOnly(country: string, ch: char)
    requires forall i :: 0 <= i < |country| ==> IsWhiteSpace(country[i]) ==> country[i] == ' '
    requires ch in ToLower(Trim(country))
    ensures IsWhiteSpace(ch) ==> ch == ' '
  {
    var t := Trim(country);
    var lowered := ToLower(t);
    var i :| 0 <= i < |lowered| && lowered[i] == ch;
    assert t[i] == country[Leading(country) + i];
  }

  lemma TrimTabDot(s: string)
    requires s == "a\t."
    ensures Trim(s) == s
  {
    WhiteSpaceRange('a');
    WhiteSpaceRange('.');
  }

  lemma DropDot(s: string)
    requires s == "a\t."
    ensures RemoveAll(s, ".") == "a\t"
  {
    assert RemoveAll(s[2..], ".") == [];
    assert RemoveAll(s[1..], ".") == ['\t'] + RemoveAll(s[2..], ".");
  }

  /** The first four steps of the chain on "a\t.": only the dot goes. */
  lemma TabDotSteps(s: string)
    requires s == "a\t."
    ensures RemoveAll(RemoveAll(ToLower(Trim(s)), "the "), ".") == "a\t"
  {
    TrimTabDot(s);
    assert ToLower(s) == s;
    RemoveAllAbsent(s, "the ", ' ');
    DropDot(s);
  }

  lemma SqueezeTabDot(s: string, t: string)
    requires s == "a\t." && t == "a\t"
    ensures Squeeze(s) == t
  {
    TabDotSteps(s);
    RemoveAllAbsent(t, " ", ' ');
  }

  /** A token the replacement chain produces and the alias table does not list is the canonical form. */
  lemma CanonicalOfUnlisted(s: string, t: string)
    requires Squeeze(s) == t && t !in UsaAliases + UkAliases
    ensures CanonicalCountry(s) == t
  {
  }

  lemma TabTokenUnlisted(t: string)
    requires t == "a\t"
    ensures t !in UsaAliases + UkAliases && IsWhiteSpace(t[1])
  {
  }

  /** The counterexample to unconditional idempotence: "a\t." canonicalises to "a\t", which ends with a
      tab and so canonicalises further. */
  lemma CanonicalNotIdempotent(s: string, t: string)
    requires s == "a\t." && t == "a\t"
    ensures CanonicalCountry(s) == t
    ensures CanonicalCountry(t) != t
  {
    SqueezeTabDot(s, t);
    TabTokenUnlisted(t);
    CanonicalOfUnlisted(s, t);
    CanonicalMoves(t);
  }

  /** Every free-text field other than the country of residence is the input field trimmed. */
  ghost predicate FieldsTrimmedFrom(f: Form, input: Form) {
    TrimmedFrom(f.submissionQuestion, input.submissionQuestion) &&
    TrimmedFrom(f.name, input.name) &&
    TrimmedFrom(f.age, input.age) &&
    TrimmedFrom(f.gender, input.gender) &&
    TrimmedFrom(f.email, input.email) &&
    TrimmedFrom(f.phone, input.phone) &&
    TrimmedFrom(f.state, input.state) &&
    TrimmedFrom(f.city, input.city) &&
    TrimmedFrom(f.zipcode, input.zipcode) &&
    TrimmedFrom(f.countryChoiceOne, input.countryChoiceOne) &&
    TrimmedFrom(f.countryChoiceTwo, input.countryChoiceTwo) &&
    TrimmedFrom(f.countryChoiceThree, input.countryChoiceThree) &&
    TrimmedFrom(f.countryChoiceFour, input.countryChoiceFour)
  }

  /** The field values the constructor assigns. */
  function Normalize(input: Form): (f: Form)
    ensures FieldsTrimmedFrom(f, input)
    ensures f.isInterestedOutboundStudent == input.isInterestedOutboundStudent
    ensures f.isInterestedInHosting == input.isInterestedInHosting
    ensures f.countryOfResidence == CanonicalCountry(input.countryOfResidence)
  {
    var f := Form(
      input.isInterestedOutboundStudent,
      input.isInterestedInHosting,
      Trim(input.submissionQuestion),
      Trim(input.name),
      Trim(input.age),
      Trim(input.gender),
      Trim(input.email),
      Trim(input.phone),
      CanonicalCountry(input.countryOfResidence),
      Trim(input.state),
      Trim(input.city),
      Trim(input.zipcode),
      Trim(input.countryChoiceOne),
      Trim(input.countryChoiceTwo),
      Trim(input.countryChoiceThree),
      Trim(input.countryChoiceFour));
    TrimmedFromIsTrim(f.submissionQuestion, input.submissionQuestion);
    TrimmedFromIsTrim(f.name, input.name);
    TrimmedFromIsTrim(f.age, input.age);
    TrimmedFromIsTrim(f.gender, input.gender);
    TrimmedFromIsTrim(f.email, input.email);
    TrimmedFromIsTrim(f.phone, input.phone);
    TrimmedFromIsTrim(f.state, input.state);
    TrimmedFromIsTrim(f.city, input.city);
    TrimmedFromIsTrim(f.zipcode, input.zipcode);
    TrimmedFromIsTrim(f.countryChoiceOne, input.countryChoiceOne);
    TrimmedFromIsTrim(f.countryChoiceTwo, input.countryChoiceTwo);
    TrimmedFromIsTrim(f.countryChoiceThree, input.countryChoiceThree);
    TrimmedFromIsTrim(f.countryChoiceFour, input.countryChoiceFour);
    f
  }

  /** The zip code is only trimmed: a zip code without white space at its ends is stored unchanged, with
      no truncation and no change of case. */
  lemma ZipcodeOnlyTrimmed(input: Form)
    requires NoEdgeWhiteSpace(input.zipcode)
    ensures Normalize(input).zipcode == input.zipcode
  {
    TrimmedFromIsTrim(Normalize(input).zipcode, input.zipcode);
  }

  /** Normalising a normalised form changes nothing when its country token has no white space at the ends. */
  lemma NormalizeIdempotent(input: Form)
    requires NoEdgeWhiteSpace(Normalize(input).countryOfResidence)
    ensures Normalize(Normalize(input)) == Normalize(input)
  {
    CanonicalIdempotentIff(input.countryOfResidence);
  }

  /** A growable list of strings (List<string>), shared by reference. */
  class StringList {
    var elems: seq<string>

    constructor ()
      ensures elems == []
    {
      elems := [];
    }

    constructor Of(xs: seq<string>)
      ensures elems == xs
    {
      elems := xs;
    }

    /** List.Add. */
    method Add(x: string)
      modifies this
      ensures elems == old(elems) + [x]
    {
      elems := elems + [x];
    }

    /** List.AddRange. */
    method AddRange(xs: seq<string>)
      modifies this
      ensures elems == old(elems) + xs
    {
      elems := elems + xs;
    }
  }

  /** The submission object. Its form fields are set when it is built; its id is set by AddId and its
      error list grows through AddError and AddErrors. */
  class InterestFormSubmission {
    var id: string
    const form: Form
    const errors: StringList

    /** The sixteen-argument constructor, given the new Guid that AddId draws. */
    constructor (input: Form, guid: string)
      ensures form == Normalize(input)
      ensures errors.elems == []
      ensures id == guid
      ensures fresh(errors)
    {
      form := Normalize(input);
      errors := new StringList();
      id := "";
      new;
      AddId(guid);
    }

    /** An object the JSON deserialiser fills in through the parameterless constructor and the property
        setters: nothing is trimmed or canonicalised, and the id and error list are those of the JSON. */
    constructor Deserialized(id0: string, form0: Form, errors0: seq<string>)
      ensures id == id0 && form == form0 && errors.elems == errors0
      ensures fresh(errors)
    {
      id := id0;
      form := form0;
      errors := new StringList.Of(errors0);
    }

    /** AddId, with the Guid drawn passed in. */
    method AddId(guid: string)
      modifies this
      ensures id == guid
    {
      id := guid;
    }

    method AddError(message: string)
      modifies errors
      ensures errors.elems == old(errors.elems) + [message]
    {
      errors.Add(message);
    }

    method AddErrors(messages: seq<string>)
      modifies errors
      ensures errors.elems == old(errors.elems) + messages
    {
      errors.AddRange(messages);
    }

    function Record(): SubmissionRecord
      reads this, errors
    {
      SubmissionRecord(id, form, errors.elems)
    }
  }
}
