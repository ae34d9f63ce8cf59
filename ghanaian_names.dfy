/**
 * The static catalogue of Ghanaian names and its three selectors. The random float that picks
 * a name is replaced by the index it selects.
 */
module GhanaianNames {
  import opened Sequences
  import opened Text

  datatype Gender = Male | Female

  /** The gender filter of the name generator: 'any', 'male' or 'female'. */
  datatype GenderChoice = Any | Only(gender: Gender)

  datatype GhanaianName = GhanaianName(name: string, meaning: string, tribe: string, gender: Gender)

  /** The catalogue in source order. It has no uniqueness invariant: several rows repeat. */
  function Catalogue(): (c: seq<GhanaianName>)
    ensures |c| == 98
  {
    DayNames() + AdditionalMaleNames() + AdditionalFemaleNames() + EweNames() + DagombaNames() + GaNames() + FanteNames()
  }

  /** The Akan day names, male then female. */
  function DayNames(): seq<GhanaianName>
  {
    [
      GhanaianName("Kwame", "Born on Saturday", "Akan", Male),
      GhanaianName("Kwesi", "Born on Sunday", "Akan", Male),
      GhanaianName("Kwadwo", "Born on Monday", "Akan", Male),
      GhanaianName("Kwabena", "Born on Tuesday", "Akan", Male),
      GhanaianName("Kwaku", "Born on Wednesday", "Akan", Male),
      GhanaianName("Yaw", "Born on Thursday", "Akan", Male),
      GhanaianName("Kofi", "Born on Friday", "Akan", Male),
      GhanaianName("Adwoa", "Born on Monday", "Akan", Female),
      GhanaianName("Abena", "Born on Tuesday", "Akan", Female),
      GhanaianName("Akua", "Born on Wednesday", "Akan", Female),
      GhanaianName("Yaa", "Born on Thursday", "Akan", Female),
      GhanaianName("Afua", "Born on Friday", "Akan", Female),
      GhanaianName("Ama", "Born on Saturday", "Akan", Female),
      GhanaianName("Akosua", "Born on Sunday", "Akan", Female)
    ]
  }

  /** Additional male names; Kufuor appears twice. */
  function AdditionalMaleNames(): seq<GhanaianName>
  {
    [
      GhanaianName("Nana", "Chief/King", "Akan", Male),
      GhanaianName("Osei", "Noble", "Akan", Male),
      GhanaianName("Boateng", "Warrior", "Akan", Male),
      GhanaianName("Mensah", "Third child", "Akan", Male),
      GhanaianName("Addo", "King of the road", "Akan", Male),
      GhanaianName("Owusu", "Born on Sunday", "Akan", Male),
      GhanaianName("Sarpong", "Warrior", "Akan", Male),
      GhanaianName("Darko", "Born on Friday", "Akan", Male),
      GhanaianName("Asante", "Warrior", "Akan", Male),
      GhanaianName("Opoku", "Gift from God", "Akan", Male),
      GhanaianName("Agyemang", "Brave warrior", "Akan", Male),
      GhanaianName("Kufuor", "Born on Friday", "Akan", Male),
      GhanaianName("Annan", "Fourth child", "Akan", Male),
      GhanaianName("Kufuor", "Born on Friday", "Akan", Male)
    ]
  }

  /** Additional female names: the seven Akan female day names, twice more. */
  function AdditionalFemaleNames(): seq<GhanaianName>
  {
    [
      GhanaianName("Adwoa", "Born on Monday", "Akan", Female),
      GhanaianName("Abena", "Born on Tuesday", "Akan", Female),
      GhanaianName("Akua", "Born on Wednesday", "Akan", Female),
      GhanaianName("Yaa", "Born on Thursday", "Akan", Female),
      GhanaianName("Afua", "Born on Friday", "Akan", Female),
      GhanaianName("Ama", "Born on Saturday", "Akan", Female),
      GhanaianName("Akosua", "Born on Sunday", "Akan", Female),
      GhanaianName("Adwoa", "Born on Monday", "Akan", Female),
      GhanaianName("Abena", "Born on Tuesday", "Akan", Female),
      GhanaianName("Akua", "Born on Wednesday", "Akan", Female),
      GhanaianName("Yaa", "Born on Thursday", "Akan", Female),
      GhanaianName("Afua", "Born on Friday", "Akan", Female),
      GhanaianName("Ama", "Born on Saturday", "Akan", Female),
      GhanaianName("Akosua", "Born on Sunday", "Akan", Female)
    ]
  }

  /** Ewe names. */
  function EweNames(): seq<GhanaianName>
  {
    [
      GhanaianName("Kofi", "Born on Friday", "Ewe", Male),
      GhanaianName("Kodjo", "Born on Monday", "Ewe", Male),
      GhanaianName("Komla", "Born on Tuesday", "Ewe", Male),
      GhanaianName("Koku", "Born on Wednesday", "Ewe", Male),
      GhanaianName("Yawo", "Born on Thursday", "Ewe", Male),
      GhanaianName("Kwami", "Born on Saturday", "Ewe", Male),
      GhanaianName("Kwasi", "Born on Sunday", "Ewe", Male),
      GhanaianName("Adzo", "Born on Monday", "Ewe", Female),
      GhanaianName("Abla", "Born on Tuesday", "Ewe", Female),
      GhanaianName("Aku", "Born on Wednesday", "Ewe", Female),
      GhanaianName("Ya", "Born on Thursday", "Ewe", Female),
      GhanaianName("Afi", "Born on Friday", "Ewe", Female),
      GhanaianName("Ama", "Born on Saturday", "Ewe", Female),
      GhanaianName("Akos", "Born on Sunday", "Ewe", Female)
    ]
  }

  /** Dagomba names. */
  function DagombaNames(): seq<GhanaianName>
  {
    [
      GhanaianName("Alhassan", "Lion", "Dagomba", Male),
      GhanaianName("Ibrahim", "Father of many", "Dagomba", Male),
      GhanaianName("Musa", "Drawn from water", "Dagomba", Male),
      GhanaianName("Yakubu", "Supplanter", "Dagomba", Male),
      GhanaianName("Abdul", "Servant of God", "Dagomba", Male),
      GhanaianName("Fatima", "Daughter of the Prophet", "Dagomba", Female),
      GhanaianName("Aisha", "Living", "Dagomba", Female),
      GhanaianName("Hajara", "Forsaken", "Dagomba", Female),
      GhanaianName("Zainab", "Fragrant flower", "Dagomba", Female),
      GhanaianName("Rahma", "Mercy", "Dagomba", Female)
    ]
  }

  /** Ga names; the Adjei rows repeat with different meanings. */
  function GaNames(): seq<GhanaianName>
  {
    [
      GhanaianName("Nii", "Chief", "Ga", Male),
      GhanaianName("Naa", "Chief", "Ga", Female),
      GhanaianName("Tetteh", "Third child", "Ga", Male),
      GhanaianName("Tettey", "Third child", "Ga", Female),
      GhanaianName("Lartey", "Fourth child", "Ga", Male),
      GhanaianName("Lartei", "Fourth child", "Ga", Female),
      GhanaianName("Bortey", "Fifth child", "Ga", Male),
      GhanaianName("Bortei", "Fifth child", "Ga", Female),
      GhanaianName("Adjetey", "Sixth child", "Ga", Male),
      GhanaianName("Adjei", "Sixth child", "Ga", Female),
      GhanaianName("Adjei", "Seventh child", "Ga", Male),
      GhanaianName("Adjei", "Seventh child", "Ga", Female),
      GhanaianName("Adjei", "Eighth child", "Ga", Male),
      GhanaianName("Adjei", "Eighth child", "Ga", Female),
      GhanaianName("Adjei", "Ninth child", "Ga", Male),
      GhanaianName("Adjei", "Ninth child", "Ga", Female),
      GhanaianName("Adjei", "Tenth child", "Ga", Male),
      GhanaianName("Adjei", "Tenth child", "Ga", Female)
    ]
  }

  /** Fante names. */
  function FanteNames(): seq<GhanaianName>
  {
    [
      GhanaianName("Kwame", "Born on Saturday", "Fante", Male),
      GhanaianName("Kwesi", "Born on Sunday", "Fante", Male),
      GhanaianName("Kwadwo", "Born on Monday", "Fante", Male),
      GhanaianName("Kwabena", "Born on Tuesday", "Fante", Male),
      GhanaianName("Kwaku", "Born on Wednesday", "Fante", Male),
      GhanaianName("Yaw", "Born on Thursday", "Fante", Male),
      GhanaianName("Kofi", "Born on Friday", "Fante", Male),
      GhanaianName("Adwoa", "Born on Monday", "Fante", Female),
      GhanaianName("Abena", "Born on Tuesday", "Fante", Female),
      GhanaianName("Akua", "Born on Wednesday", "Fante", Female),
      GhanaianName("Yaa", "Born on Thursday", "Fante", Female),
      GhanaianName("Afua", "Born on Friday", "Fante", Female),
      GhanaianName("Ama", "Born on Saturday", "Fante", Female),
      GhanaianName("Akosua", "Born on Sunday", "Fante", Female)
    ]
  }

  function HasGender(gender: Gender): GhanaianName -> bool
  {
    (n: GhanaianName) => n.gender == gender
  }

  /** Tribe equality ignoring (ASCII) case, as the tribe selector compares them. */
  function SameTribe(tribe: string): GhanaianName -> bool
  {
    (n: GhanaianName) => ToLower(n.tribe) == ToLower(tribe)
  }

  /** getNamesByGender: the catalogue rows of the given gender, in catalogue order, duplicates kept. */
  function NamesByGender(gender: Gender): (r: seq<GhanaianName>)
    ensures IsSubsequence(r, Catalogue()) && |r| <= |Catalogue()|
    ensures forall n :: Count(r, n) == if n.gender == gender then Count(Catalogue(), n) else 0
    ensures forall n :: n in r <==> n in Catalogue() && n.gender == gender
  {
    Filter(HasGender(gender), Catalogue())
  }

  /** getNamesByTribe: the catalogue rows whose tribe equals `tribe` up to case, in catalogue order. */
  function NamesByTribe(tribe: string): (r: seq<GhanaianName>)
    ensures IsSubsequence(r, Catalogue()) && |r| <= |Catalogue()|
    ensures forall n :: Count(r, n) == if ToLower(n.tribe) == ToLower(tribe) then Count(Catalogue(), n) else 0
    ensures forall n :: n in r <==> n in Catalogue() && ToLower(n.tribe) == ToLower(tribe)
  {
    Filter(SameTribe(tribe), Catalogue())
  }

  /** The gender selector returns exactly one sequence: any other subsequence of the catalogue
      with the same rows, counted with their repetitions, is that sequence. */
  lemma NamesByGenderExactly(gender: Gender, r: seq<GhanaianName>)
    requires IsSubsequence(r, Catalogue())
    requires forall n :: Count(r, n) == if n.gender == gender then Count(Catalogue(), n) else 0
    ensures r == NamesByGender(gender)
  {
    FilterUnique(HasGender(gender), Catalogue(), r);
  }

  /** Tribes that agree after lower-casing select the same rows, e.g. "akan", "Akan" and "AKAN". */
  lemma NamesByTribeIgnoresCase(tribe1: string, tribe2: string)
    requires ToLower(tribe1) == ToLower(tribe2)
    ensures NamesByTribe(tribe1) == NamesByTribe(tribe2)
  {
    FilterUnique(SameTribe(tribe2), Catalogue(), NamesByTribe(tribe1));
  }

  lemma AkanSpellings()
    ensures NamesByTribe("akan") == NamesByTribe("Akan") == NamesByTribe("AKAN")
    ensures Catalogue()[0] in NamesByTribe("akan")
  {
    assert ToLower("akan") == ToLower("Akan") == ToLower("AKAN") == "akan";
    NamesByTribeIgnoresCase("akan", "Akan");
    NamesByTribeIgnoresCase("akan", "AKAN");
    assert ToLower(Catalogue()[0].tribe) == "akan";
  }

  /** The gender choice admits the row: every row for 'any', else the rows of that gender. */
  predicate Admits(choice: GenderChoice, n: GhanaianName) {
    choice.Only? ==> n.gender == choice.gender
  }

  /** The candidate list of getRandomName: the whole catalogue for 'any', else the rows of that
      gender (the same filter as NamesByGender), in catalogue order with duplicates kept. It is
      never empty. */
  function Candidates(choice: GenderChoice): (r: seq<GhanaianName>)
    ensures |r| > 0
    ensures IsSubsequence(r, Catalogue())
    ensures forall n :: Count(r, n) == if Admits(choice, n) then Count(Catalogue(), n) else 0
    ensures forall n :: n in r <==> n in Catalogue() && Admits(choice, n)
    ensures choice.Only? ==> r == NamesByGender(choice.gender)
  {
    assert Catalogue()[0].gender == Male && Catalogue()[7].gender == Female;
    if choice.Any? then
      SubsequenceOfItself(Catalogue());
      Catalogue()
    else
      NamesByGender(choice.gender)
  }

  /** Math.floor(random * length) for a random number in [0, 1): an index into a non-empty list. */
  function RandomIndex(random: real, length: nat): (i: nat)
    requires 0.0 <= random < 1.0
    ensures length > 0 ==> i < length
    ensures length == 0 ==> i == 0
  {
    (random * length as real).Floor
  }

  /** getRandomName, with the random choice given as the index it selects in the candidate list.
      `lastName` is accepted and not used. */
  function RandomName(choice: GenderChoice, lastName: string, i: nat): (r: GhanaianName)
    requires i < |Candidates(choice)|
    ensures r in Catalogue()
    ensures choice.Only? ==> i < |NamesByGender(choice.gender)| && r == NamesByGender(choice.gender)[i]
    ensures choice.Only? ==> r.gender == choice.gender && r in NamesByGender(choice.gender)
    ensures choice.Any? ==> r == Catalogue()[i]
  {
    Candidates(choice)[i]
  }

  /** Every random number in [0, 1) selects a name: the lookup is always defined. */
  lemma RandomIndexInCandidates(choice: GenderChoice, random: real)
    requires 0.0 <= random < 1.0
    ensures RandomIndex(random, |Candidates(choice)|) < |Candidates(choice)|
  {
  }

  /** The last name has no influence on the chosen record. */
  lemma RandomNameIgnoresLastName(choice: GenderChoice, lastName1: string, lastName2: string, i: nat)
    requires i < |Candidates(choice)|
    ensures RandomName(choice, lastName1, i) == RandomName(choice, lastName2, i)
  {
  }

  /** Dividing an index by the length gives a random number that selects that index. */
  lemma RandomIndexReaches(k: nat, length: nat)
    requires k < length
    ensures 0.0 <= k as real / length as real < 1.0
    ensures RandomIndex(k as real / length as real, length) == k
  {
    assert (k as real / length as real) * length as real == k as real;
  }

  /** Every element of a non-empty list is selected by Math.floor(random * length) for some random number. */
  lemma EveryElementReachable(cands: seq<GhanaianName>, n: GhanaianName)
    requires n in cands
    ensures exists random: real ::
      0.0 <= random < 1.0 && RandomIndex(random, |cands|) < |cands| && cands[RandomIndex(random, |cands|)] == n
  {
    var k :| 0 <= k < |cands| && cands[k] == n;
    RandomIndexReaches(k, |cands|);
    var random := k as real / |cands| as real;
    assert cands[RandomIndex(random, |cands|)] == n;
  }

  /** Every row that the gender choice admits is returned for some random number in [0, 1). */
  lemma EveryAdmittedRowReachable(choice: GenderChoice, lastName: string, n: GhanaianName)
    requires n in Catalogue()
    requires Admits(choice, n)
    ensures exists random: real ::
      0.0 <= random < 1.0 &&
      RandomIndex(random, |Candidates(choice)|) < |Candidates(choice)| &&
      RandomName(choice, lastName, RandomIndex(random, |Candidates(choice)|)) == n
  {
    EveryElementReachable(Candidates(choice), n);
  }

  /** With the choice 'any', every position of the catalogue is selected by some random number. */
  lemma EveryCatalogueIndexReachable(lastName: string, j: nat)
    requires j < |Catalogue()|
    ensures exists random: real ::
      0.0 <= random < 1.0 &&
      RandomIndex(random, |Catalogue()|) == j &&
      RandomName(Any, lastName, j) == Catalogue()[j]
  {
    RandomIndexReaches(j, |Catalogue()|);
    var random := j as real / |Catalogue()| as real;
    assert RandomIndex(random, |Catalogue()|) == j;
  }
}
