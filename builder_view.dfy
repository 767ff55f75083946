/**
 * The atom builder screen (components/BuilderView.tsx): the three particle
 * counters and the selected element, the score of a finished attempt, the
 * element search and the restore of a saved attempt.
 */
module BuilderView {
  import opened Types
  import opened Wrappers
  import Seqs

  // ---------------------------------------------------------------------------
  // Scoring

  /** How many of the three criteria hold: protons = Z, neutrons = the element's neutrons, electrons = Z. */
  function MatchCount(protons: nat, neutrons: nat, electrons: nat, target: ElementData): (m: nat)
    ensures m <= 3
    ensures m == 3 <==> protons == target.z && neutrons == target.neutrons && electrons == target.z
    ensures m == 0 <==> protons != target.z && neutrons != target.neutrons && electrons != target.z
  {
    (if protons == target.z then 1 else 0)
    + (if neutrons == target.neutrons then 1 else 0)
    + (if electrons == target.z then 1 else 0)
  }

  /** The raw score in hundredths of a point: 33.33 for protons, 33.33 for neutrons, 33.34 for electrons. */
  function ScoreHundredths(protons: nat, neutrons: nat, electrons: nat, target: ElementData): nat {
    (if protons == target.z then 3333 else 0)
    + (if neutrons == target.neutrons then 3333 else 0)
    + (if electrons == target.z then 3334 else 0)
  }

  /** `Math.round(h / 100)` for h >= 0: the nearest whole number, halves rounded up. */
  function RoundHundredths(h: nat): (r: nat)
    ensures 100 * r <= h + 50 < 100 * r + 100
  {
    (h + 50) / 100
  }

  /** The score for a number of matching criteria: 0, 33, 67 or 100. */
  function ScoreForMatches(m: nat): nat
    requires m <= 3
  {
    [0, 33, 67, 100][m]
  }

  /**
   * The rounded score depends only on how many criteria match, whichever they
   * are, because the three weights differ by at most one hundredth.
   */
  function Score(protons: nat, neutrons: nat, electrons: nat, target: ElementData): (s: nat)
    ensures s == ScoreForMatches(MatchCount(protons, neutrons, electrons, target))
    ensures s <= 100
    ensures s == 100 <==> MatchCount(protons, neutrons, electrons, target) == 3
  {
    RoundHundredths(ScoreHundredths(protons, neutrons, electrons, target))
  }

  /** The accuracy bar's fraction: the matching criteria out of three, from the same counts that drive the score. */
  function AccuracyFraction(protons: nat, neutrons: nat, electrons: nat, target: ElementData): (f: real)
    ensures f * 3.0 == MatchCount(protons, neutrons, electrons, target) as real
    ensures 0.0 <= f <= 1.0
    ensures f == 1.0 <==> Score(protons, neutrons, electrons, target) == 100
  {
    ((if protons == target.z then 1.0 else 0.0)
     + (if neutrons == target.neutrons then 1.0 else 0.0)
     + (if electrons == target.z then 1.0 else 0.0)) / 3.0
  }

  // ---------------------------------------------------------------------------
  // Element search

  /** `z.toString()`: the decimal digits of `n`, no leading zero. */
  function DecimalString(n: nat): (s: string)
    ensures |s| >= 1
    ensures forall i :: 0 <= i < |s| ==> '0' <= s[i] <= '9'
    ensures s[0] == '0' ==> n == 0
  {
    if n < 10 then [DigitChar(n)] else DecimalString(n / 10) + [DigitChar(n % 10)]
  }

  function DigitChar(d: nat): (c: char)
    requires d < 10
    ensures '0' <= c <= '9'
  {
    ['0', '1', '2', '3', '4', '5', '6', '7', '8', '9'][d]
  }

  /** The number a string of decimal digits denotes. */
  function DecimalValue(s: string): nat
    requires forall i :: 0 <= i < |s| ==> '0' <= s[i] <= '9'
  {
    if s == [] then 0 else DecimalValue(s[..|s| - 1]) * 10 + ((s[|s| - 1] as int) - ('0' as int))
  }

  /** Reading back the decimal string of `n` gives `n`, so distinct atomic numbers print differently. */
  lemma {:induction false} DecimalRoundTrip(n: nat)
    ensures DecimalValue(DecimalString(n)) == n
  {
    if n >= 10 {
      DecimalRoundTrip(n / 10);
      var s := DecimalString(n);
      assert s[..|s| - 1] == DecimalString(n / 10);
    }
  }

  /**
   * The search test of one element: the lower-cased term occurs in the
   * lower-cased name or symbol, or the term is exactly the atomic number.
   * `lower` stands for `String.prototype.toLowerCase`.
   */
  predicate SearchMatches(e: ElementData, term: string, lower: string -> string) {
    || Seqs.Includes(lower(e.name), lower(term))
    || Seqs.Includes(lower(e.symbol), lower(term))
    || DecimalString(e.z) == term
  }

  /**
   * The element list shown for a search term: an order-preserving sub-list of the
   * table holding each element exactly as often as the table does when it
   * matches, and not at all otherwise.
   */
  function FilteredElements(elements: seq<ElementData>, term: string, lower: string -> string): (r: seq<ElementData>)
    ensures Seqs.IsSubsequence(r, elements)
    ensures forall e :: e in r <==> e in elements && SearchMatches(e, term, lower)
    ensures forall e :: multiset(r)[e] == if SearchMatches(e, term, lower) then multiset(elements)[e] else 0
  {
    Seqs.FilterSpec(elements, e => SearchMatches(e, term, lower));
    Seqs.Filter(elements, e => SearchMatches(e, term, lower))
  }

  /** With the search box empty every element is listed, in table order. */
  lemma EmptySearchKeepsAll(elements: seq<ElementData>, lower: string -> string)
    requires lower([]) == []
    ensures FilteredElements(elements, [], lower) == elements
  {
    forall e | e in elements
      ensures SearchMatches(e, [], lower)
    {
      assert [] <= lower(e.name);
    }
    Seqs.FilterKeepsAll(elements, e => SearchMatches(e, [], lower));
  }

  // ---------------------------------------------------------------------------
  // Restoring a saved attempt

  /** A parsed saved attempt; a missing field is `None`. */
  datatype SavedState = SavedState(
    selectedElementZ: Option<int>,
    protons: Option<nat>,
    neutrons: Option<nat>,
    electrons: Option<nat>)

  /**
   * Position of the element a saved atomic number selects: the first element
   * with that Z, or the table's first element when none has it.
   */
  function RestoredIndex(elements: seq<ElementData>, savedZ: Option<int>): (i: nat)
    requires |elements| > 0
    ensures i < |elements|
    ensures forall j :: 0 <= j < i ==> savedZ != Some(elements[j].z)
    ensures savedZ == Some(elements[i].z) || (i == 0 && forall j :: 0 <= j < |elements| ==> savedZ != Some(elements[j].z))
  {
    match Seqs.FindFirst(elements, (x: ElementData) => savedZ == Some(x.z))
    case Some(i) => i
    case None => 0
  }

  /**
   * The builder's state: the target element and the three counters, which
   * start at zero and never go below it.
   */
  class Builder {
    var selectedElement: ElementData
    var protons: nat
    var neutrons: nat
    var electrons: nat

    /** A fresh builder targets the table's first element with an empty atom. */
    constructor (elements: seq<ElementData>)
      requires |elements| > 0
      ensures selectedElement == elements[0]
      ensures protons == 0 && neutrons == 0 && electrons == 0
    {
      selectedElement := elements[0];
      protons, neutrons, electrons := 0, 0, 0;
    }

    /** Adds one particle of the given kind; the other two counters and the target stay. */
    method AddParticle(kind: ParticleKind)
      modifies this
      ensures protons == old(protons) + (if kind == Proton then 1 else 0)
      ensures neutrons == old(neutrons) + (if kind == Neutron then 1 else 0)
      ensures electrons == old(electrons) + (if kind == Electron then 1 else 0)
      ensures selectedElement == old(selectedElement)
    {
      if kind == Proton {
        protons := protons + 1;
      } else if kind == Neutron {
        neutrons := neutrons + 1;
      } else {
        electrons := electrons + 1;
      }
    }

    /** Removes one particle of the given kind if there is one; a zero counter stays at zero. */
    method RemoveParticle(kind: ParticleKind)
      modifies this
      ensures protons == if kind == Proton && old(protons) > 0 then old(protons) - 1 else old(protons)
      ensures neutrons == if kind == Neutron && old(neutrons) > 0 then old(neutrons) - 1 else old(neutrons)
      ensures electrons == if kind == Electron && old(electrons) > 0 then old(electrons) - 1 else old(electrons)
      ensures selectedElement == old(selectedElement)
    {
      if kind == Proton {
        protons := if protons >= 1 then protons - 1 else 0;
      } else if kind == Neutron {
        neutrons := if neutrons >= 1 then neutrons - 1 else 0;
      } else {
        electrons := if electrons >= 1 then electrons - 1 else 0;
      }
    }

    /** Empties the atom; the target stays. Resetting an empty atom changes nothing. */
    method ResetAtom()
      modifies this
      ensures protons == 0 && neutrons == 0 && electrons == 0
      ensures selectedElement == old(selectedElement)
    {
      protons := 0;
      neutrons := 0;
      electrons := 0;
    }

    /** Picking an element from the list changes the target only. */
    method SelectElement(e: ElementData)
      modifies this
      ensures selectedElement == e
      ensures protons == old(protons) && neutrons == old(neutrons) && electrons == old(electrons)
    {
      selectedElement := e;
    }

    /** Restores a parsed saved attempt: the element its Z selects, and each counter or 0 when missing. */
    method Restore(elements: seq<ElementData>, saved: SavedState)
      requires |elements| > 0
      modifies this
      ensures selectedElement == elements[RestoredIndex(elements, saved.selectedElementZ)]
      ensures protons == saved.protons.GetOr(0)
      ensures neutrons == saved.neutrons.GetOr(0)
      ensures electrons == saved.electrons.GetOr(0)
    {
      selectedElement := elements[RestoredIndex(elements, saved.selectedElementZ)];
      protons := saved.protons.GetOr(0);
      neutrons := saved.neutrons.GetOr(0);
      electrons := saved.electrons.GetOr(0);
    }

    /**
     * The result of finishing: the counts as they are, the score of the attempt
     * against the target, the seconds taken and the target's name.
     */
    method Finish(timeTaken: int) returns (result: BuildingResult)
      ensures result.protons == protons && result.neutrons == neutrons && result.electrons == electrons
      ensures result.score == ScoreForMatches(MatchCount(protons, neutrons, electrons, selectedElement))
      ensures result.timeTaken == timeTaken
      ensures result.elementName == selectedElement.name
    {
      var score := Score(protons, neutrons, electrons, selectedElement);
      result := BuildingResult(protons, neutrons, electrons, score, timeTaken, selectedElement.name);
    }
  }
}
