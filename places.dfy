/** The places the notebook src/italy.py walks through: the regions joined
    after Lombardia and the provinces of the Lombard outbreak, with the facts
    about their names that keep per-place column names apart. */
module Places {
  import opened Frames

  /** The regions after Lombardia, in the notebook's order (ITALIAN_REGIONS). */
  const ItalianRegions: seq<string> := [
    "Abruzzo", "Basilicata", "Calabria", "Campania", "Emilia Romagna", "Friuli Venezia Giulia",
    "Lazio", "Liguria", "Marche", "Molise", "P.A. Bolzano", "P.A. Trento", "Piemonte",
    "Sardegna", "Sicilia", "Puglia", "Toscana", "Umbria", "Valle d'Aosta", "Veneto"]

  /** The provinces joined side by side (PROVINCE). */
  const Provinces: seq<string> := ["Bergamo", "Brescia", "Cremona", "Lodi", "Milano", "Pavia", "Piacenza"]

  /** Names that keep renamed columns apart: pairwise different, none
      holding an underscore. */
  predicate PlainNames(names: seq<string>) {
    && Distinct(names)
    && forall k :: 0 <= k < |names| ==> '_' !in names[k]
  }

  /** The order in which the regions enter the join: Lombardia seeds it,
      then come `regions`, which exclude it. */
  function Units(regions: seq<string>): seq<string> {
    ["Lombardia"] + regions
  }

  lemma LombardiaPlain()
    ensures '_' !in "Lombardia"
  {
  }

  /** Three facts about a name (first and third letter, length) that
      already tell the 21 regions apart. */
  function Signature(s: string): (char, char, int)
    requires |s| >= 3
  {
    (s[0], s[2], |s|)
  }

  const SignaturesA: seq<(char, char, int)> := [
    ('L', 'm', 9), ('A', 'r', 7), ('B', 's', 10), ('C', 'l', 8), ('C', 'm', 8), ('E', 'i', 14), ('F', 'i', 21)]
  const SignaturesB: seq<(char, char, int)> := [
    ('L', 'z', 5), ('L', 'g', 7), ('M', 'r', 6), ('M', 'l', 6), ('P', 'A', 12), ('P', 'A', 11), ('P', 'e', 8)]
  const SignaturesC: seq<(char, char, int)> := [
    ('S', 'r', 8), ('S', 'c', 7), ('P', 'g', 6), ('T', 's', 7), ('U', 'b', 6), ('V', 'l', 13), ('V', 'n', 6)]

  lemma SignaturesADistinct() ensures Distinct(SignaturesA) {}
  lemma SignaturesBDistinct() ensures Distinct(SignaturesB) {}
  lemma SignaturesCDistinct() ensures Distinct(SignaturesC) {}

  lemma SignaturesApart()
    ensures forall i, j :: 0 <= i < |SignaturesA| && 0 <= j < |SignaturesB| ==> SignaturesA[i] != SignaturesB[j]
    ensures forall i, j :: 0 <= i < |SignaturesA| && 0 <= j < |SignaturesC| ==> SignaturesA[i] != SignaturesC[j]
    ensures forall i, j :: 0 <= i < |SignaturesB| && 0 <= j < |SignaturesC| ==> SignaturesB[i] != SignaturesC[j]
  {
  }

  /** The 21 signatures, Lombardia's first, are pairwise different. */
  lemma UnitSignaturesDistinct()
    ensures Distinct(SignaturesA + SignaturesB + SignaturesC)
  {
    SignaturesADistinct();
    SignaturesBDistinct();
    SignaturesCDistinct();
    SignaturesApart();
    DistinctAppend(SignaturesA, SignaturesB);
    var ab := SignaturesA + SignaturesB;
    forall i, j | 0 <= i < |ab| && 0 <= j < |SignaturesC|
      ensures ab[i] != SignaturesC[j]
    {
      if i < |SignaturesA| {
        assert ab[i] == SignaturesA[i];
      } else {
        assert ab[i] == SignaturesB[i - |SignaturesA|];
      }
    }
    DistinctAppend(ab, SignaturesC);
  }

  lemma SignaturesOfRegions()
    ensures |ItalianRegions| + 1 == |SignaturesA + SignaturesB + SignaturesC|
    ensures (SignaturesA + SignaturesB + SignaturesC)[0] == Signature("Lombardia")
    ensures forall k :: 0 <= k < |ItalianRegions| ==>
      |ItalianRegions[k]| >= 3 && Signature(ItalianRegions[k]) == (SignaturesA + SignaturesB + SignaturesC)[k + 1]
  {
  }

  lemma NoUnderscoreInRegions()
    ensures forall k :: 0 <= k < |ItalianRegions| ==> '_' !in ItalianRegions[k]
  {
  }

  /** The notebook's regions meet what the join needs: 21 units, Lombardia
      not repeated, no two names alike, none with an underscore. */
  lemma ItalianRegionsUsable()
    ensures |Units(ItalianRegions)| == 21 && PlainNames(Units(ItalianRegions))
  {
    var sigs := SignaturesA + SignaturesB + SignaturesC;
    UnitSignaturesDistinct();
    SignaturesOfRegions();
    NoUnderscoreInRegions();
    LombardiaPlain();
    var xs := Units(ItalianRegions);
    forall k | 0 <= k < |xs|
      ensures |xs[k]| >= 3 && Signature(xs[k]) == sigs[k] && '_' !in xs[k]
    {
      if k > 0 {
        assert xs[k] == ItalianRegions[k - 1];
      }
    }
    forall i, j | 0 <= i < j < |xs|
      ensures xs[i] != xs[j]
    {
      assert Signature(xs[i]) != Signature(xs[j]);
    }
  }

  /** The seven provinces are pairwise different and hold no underscore. */
  lemma ProvincesUsable()
    ensures |Provinces| == 7 && PlainNames(Provinces)
  {
  }
}
