/**
 * The name list of a simulation run: the twenty curated business names first,
 * then synthesised names "Business k" where k is the 1-based position in the list.
 */
module Naming {

  /** The curated names, in the order the list gives them. */
  const BusinessNames: seq<string> := [
    "Automated Construction Robots",
    "AI for Simulating Autonomous Vehicle Scenarios",
    "Cybersecurity Defense Solutions",
    "Smart Factory Optimization",
    "AI-based Satellite Image Analysis",
    "Renewable Energy Yield Optimization",
    "AI-Enhanced Open Source Cybersecurity Tools",
    "Spatial Data Analytics for Retail",
    "AI for Real-time Supply Chain Adaptation",
    "AI Code Reviewer",
    "XAI for Healthcare Decision Support",
    "Supply Chain Optimization",
    "AI-Driven Code Generation for Custom Software",
    "Stablecoin-Backed Lending Platforms",
    "AI-Driven Early Detection Systems",
    "AI for Personalized Genomic Medicine",
    "Remote Patient Monitoring Platform",
    "Direct Pharmaceutical Access",
    "Automated Integration Platforms",
    "Efficient Retail Inventory Management"
  ]

  predicate IsDigit(c: char)
  {
    '0' <= c <= '9'
  }

  function DigitValue(c: char): (d: nat)
    requires IsDigit(c)
    ensures d < 10
  {
    c as int - '0' as int
  }

  function DigitChar(d: nat): (c: char)
    requires d < 10
    ensures IsDigit(c) && DigitValue(c) == d
  {
    ('0' as int + d) as char
  }

  /** Decimal rendering of a natural number, as `str` prints it: no sign, no leading zero. */
  function Decimal(k: nat): (r: string)
    ensures |r| >= 1
    ensures forall i :: 0 <= i < |r| ==> IsDigit(r[i])
    ensures r[0] == '0' ==> k == 0
    decreases k
  {
    if k < 10 then [DigitChar(k)] else Decimal(k / 10) + [DigitChar(k % 10)]
  }

  /** Value of a string of decimal digits; the inverse of `Decimal`. */
  function ParseDecimal(s: string): nat
    requires forall i :: 0 <= i < |s| ==> IsDigit(s[i])
  {
    if s == [] then 0
    else ParseDecimal(s[..|s| - 1]) * 10 + DigitValue(s[|s| - 1])
  }

  /** Parsing the rendering of `k` gives back `k`. */
  lemma {:induction false} DecimalRoundTrip(k: nat)
    ensures ParseDecimal(Decimal(k)) == k
  {
    if k >= 10 {
      var r := Decimal(k);
      assert r[..|r| - 1] == Decimal(k / 10);
      DecimalRoundTrip(k / 10);
    }
  }

  /** Distinct numbers have distinct renderings. */
  lemma DecimalInjective(a: nat, b: nat)
    requires Decimal(a) == Decimal(b)
    ensures a == b
  {
    DecimalRoundTrip(a);
    DecimalRoundTrip(b);
  }

  /** The synthesised name of the business at 1-based position `k`. */
  function SynthName(k: nat): (r: string)
    ensures |r| > 9 && r[..9] == "Business "
    ensures IsDigit(r[|r| - 1])
  {
    "Business " + Decimal(k)
  }

  /**
   * The names of a run of `n` businesses: the first `min(n, 20)` curated names,
   * then "Business k" for every position k from 21 to n.
   */
  function Names(n: nat): (r: seq<string>)
    ensures |r| == n
    ensures forall k :: 0 <= k < n && k < |BusinessNames| ==> r[k] == BusinessNames[k]
    ensures forall k :: |BusinessNames| <= k < n ==> r[k] == SynthName(k + 1)
  {
    if n > |BusinessNames| then
      BusinessNames + seq(n - |BusinessNames|, j requires 0 <= j => SynthName(|BusinessNames| + j + 1))
    else
      BusinessNames[..n]
  }

  /** The curated names are pairwise distinct. */
  lemma CuratedDistinct()
    ensures forall p, q :: 0 <= p < q < |BusinessNames| ==> BusinessNames[p] != BusinessNames[q]
  {
  }

  lemma CuratedPairDistinct(p: nat, q: nat)
    requires p < q < |BusinessNames|
    ensures BusinessNames[p] != BusinessNames[q]
  {
    CuratedDistinct();
  }

  /** Every curated name ends in a letter; every synthesised name ends in a digit. */
  lemma CuratedEndsInLetter(p: nat)
    requires p < |BusinessNames|
    ensures |BusinessNames[p]| > 0 && !IsDigit(BusinessNames[p][|BusinessNames[p]| - 1])
  {
    assert forall i :: 0 <= i < |BusinessNames| ==>
      |BusinessNames[i]| > 0 && !IsDigit(BusinessNames[i][|BusinessNames[i]| - 1]);
  }

  /** Synthesised names of different positions differ. */
  lemma SynthDistinct(a: nat, b: nat)
    requires a != b
    ensures SynthName(a) != SynthName(b)
  {
    if SynthName(a) == SynthName(b) {
      assert Decimal(a) == SynthName(a)[9..] == SynthName(b)[9..] == Decimal(b);
      DecimalInjective(a, b);
    }
  }

  lemma NamePairDistinct(n: nat, p: nat, q: nat)
    requires p < q < n
    ensures Names(n)[p] != Names(n)[q]
  {
    var r := Names(n);
    if q < |BusinessNames| {
      assert r[p] == BusinessNames[p] && r[q] == BusinessNames[q];
      CuratedPairDistinct(p, q);
    } else if p < |BusinessNames| {
      CuratedEndsInLetter(p);
      var a, b := r[p], r[q];
      assert !IsDigit(a[|a| - 1]) && IsDigit(b[|b| - 1]);
    } else {
      assert r[p] == SynthName(p + 1) && r[q] == SynthName(q + 1);
      SynthDistinct(p + 1, q + 1);
    }
  }

  /** All names of a run are pairwise distinct, whatever its size. */
  lemma NamesDistinct(n: nat)
    ensures forall p, q :: 0 <= p < q < n ==> Names(n)[p] != Names(n)[q]
  {
    forall p, q | 0 <= p < q < n
      ensures Names(n)[p] != Names(n)[q]
    {
      NamePairDistinct(n, p, q);
    }
  }
}
