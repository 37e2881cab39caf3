/**
  The browser's verdict reducer (`processPredictions` in the React page): of
  the predictions returned for one image, keep the "fresh" and "rotten" ones
  and pick the most probable.
 */
module Verdict {
  import opened Wrappers
  import opened Text
  import opened Wire

  const QualityCategory := "Quality"

  /** `Array.prototype.reduce` without an initial value, called on an empty array, throws this. */
  const EmptyReduceError := "Reduce of empty array with no initial value"

  /** The single quality label chosen for one image. */
  datatype QualityVerdict = QualityVerdict(category: string, tagName: string, probability: int)

  /** A tag counts for quality when, lower-cased, it is "rotten" or "fresh". */
  predicate IsQualityTag(tag: string) {
    Lower(tag) == "rotten" || Lower(tag) == "fresh"
  }

  /** The quality predictions, in their original order (the `filter`). */
  function Candidates(ps: seq<Prediction>): seq<Prediction>
    decreases |ps|
  {
    if ps == [] then []
    else
      var init := Candidates(ps[..|ps| - 1]);
      var last := ps[|ps| - 1];
      if IsQualityTag(last.tagName) then init + [last] else init
  }

  /** The filter keeps exactly the quality predictions. */
  lemma {:induction false} CandidatesSpec(ps: seq<Prediction>)
    ensures |Candidates(ps)| <= |ps|
    ensures forall p :: p in Candidates(ps) <==> p in ps && IsQualityTag(p.tagName)
    decreases |ps|
  {
    if ps != [] {
      var last := ps[|ps| - 1];
      assert ps == ps[..|ps| - 1] + [last];
      CandidatesSpec(ps[..|ps| - 1]);
    }
  }

  /**
    The `reduce`: a left fold that keeps `prev` only when its probability is
    strictly greater than `current`'s, so on a tie the later one wins.
   */
  function Strongest(cs: seq<Prediction>): Prediction
    requires cs != []
    decreases |cs|
  {
    if |cs| == 1 then cs[0]
    else
      var prev := Strongest(cs[..|cs| - 1]);
      var current := cs[|cs| - 1];
      if prev.probability > current.probability then prev else current
  }

  /** The `reduce` returns one of the candidates, and none is more probable. */
  lemma {:induction false} StrongestSpec(cs: seq<Prediction>)
    requires cs != []
    ensures Strongest(cs) in cs
    ensures forall c | c in cs :: c.probability <= Strongest(cs).probability
    decreases |cs|
  {
    if |cs| > 1 {
      var current := cs[|cs| - 1];
      assert cs == cs[..|cs| - 1] + [current];
      StrongestSpec(cs[..|cs| - 1]);
    }
  }

  /**
    `processPredictions`: the verdict for one image, or the error the `reduce`
    throws when no prediction carries a quality tag.
   */
  function ProcessPredictions(ps: seq<Prediction>): (r: Result<QualityVerdict, string>)
    ensures r.Err? <==> forall p | p in ps :: !IsQualityTag(p.tagName)
    ensures r.Err? ==> r.error == EmptyReduceError
    ensures r.Ok? ==> r.value.category == QualityCategory && IsQualityTag(r.value.tagName)
    ensures r.Ok? ==> exists p | p in ps :: IsQualityTag(p.tagName)
                                            && p.tagName == r.value.tagName
                                            && p.probability == r.value.probability
    ensures r.Ok? ==> forall p | p in ps && IsQualityTag(p.tagName) :: p.probability <= r.value.probability
  {
    var cs := Candidates(ps);
    CandidatesSpec(ps);
    if cs == [] then
      assert forall p | p in ps :: p !in cs;
      Err(EmptyReduceError)
    else
      var h := Strongest(cs);
      StrongestSpec(cs);
      assert h in ps && IsQualityTag(h.tagName);
      Ok(QualityVerdict(QualityCategory, h.tagName, h.probability))
  }

  /**
    Tie-breaking: the chosen prediction is the LAST quality prediction of
    maximal probability; every later quality prediction is strictly less probable.
   */
  lemma {:induction false} StrongestIsLastMaximum(ps: seq<Prediction>) returns (k: nat)
    requires Candidates(ps) != []
    ensures k < |ps| && IsQualityTag(ps[k].tagName) && Strongest(Candidates(ps)) == ps[k]
    ensures forall j | k < j < |ps| && IsQualityTag(ps[j].tagName) :: ps[j].probability < ps[k].probability
    decreases |ps|
  {
    var n := |ps|;
    var init := ps[..n - 1];
    var x := ps[n - 1];
    var q := IsQualityTag(x.tagName);
    assert Candidates(ps) == Candidates(init) + (if q then [x] else []) by {
      assert ps == init + [x];
      CandidatesSnoc(init, x);
    }
    if !q {
      k := StrongestIsLastMaximum(init);
      assert forall j | k < j < n - 1 :: ps[j] == init[j];
    } else if Candidates(init) == [] {
      k := n - 1;
    } else {
      var k0 := StrongestIsLastMaximum(init);
      var best := Strongest(Candidates(init));
      assert Strongest(Candidates(ps)) == (if best.probability > x.probability then best else x) by {
        StrongestSnoc(Candidates(init), x);
      }
      if best.probability > x.probability {
        k := k0;
        assert forall j | k < j < n - 1 :: ps[j] == init[j];
      } else {
        k := n - 1;
      }
    }
  }

  /** Filtering one more prediction appends it when it carries a quality tag. */
  lemma CandidatesSnoc(init: seq<Prediction>, x: Prediction)
    ensures Candidates(init + [x]) == Candidates(init) + (if IsQualityTag(x.tagName) then [x] else [])
  {
    assert (init + [x])[..|init|] == init;
  }

  /** The `reduce` over one more candidate compares the running best with it. */
  lemma StrongestSnoc(cs: seq<Prediction>, x: Prediction)
    requires cs != []
    ensures Strongest(cs + [x]) == (if Strongest(cs).probability > x.probability then Strongest(cs) else x)
  {
    assert (cs + [x])[..|cs|] == cs;
  }

  /** The verdict copies the tag and probability of the last most probable quality prediction. */
  lemma ProcessPredictionsPicksLastMaximum(ps: seq<Prediction>) returns (k: nat)
    requires exists p | p in ps :: IsQualityTag(p.tagName)
    ensures k < |ps| && IsQualityTag(ps[k].tagName)
    ensures ProcessPredictions(ps) == Ok(QualityVerdict(QualityCategory, ps[k].tagName, ps[k].probability))
    ensures forall j | k < j < |ps| && IsQualityTag(ps[j].tagName) :: ps[j].probability < ps[k].probability
  {
    var p :| p in ps && IsQualityTag(p.tagName);
    CandidatesSpec(ps);
    assert p in Candidates(ps);
    k := StrongestIsLastMaximum(ps);
  }

  /** The filter on two predictions keeps the quality ones, in order. */
  lemma CandidatesOfTwo(a: Prediction, b: Prediction)
    ensures Candidates([a, b]) == (if IsQualityTag(a.tagName) then [a] else [])
                                + (if IsQualityTag(b.tagName) then [b] else [])
  {
    assert [a, b] == [a] + [b];
    assert [a] == [] + [a];
    CandidatesSnoc([], a);
    CandidatesSnoc([a], b);
  }

  /** The `reduce` on two quality predictions keeps the first only when it is strictly more probable. */
  lemma ProcessTwoQuality(a: Prediction, b: Prediction)
    requires IsQualityTag(a.tagName) && IsQualityTag(b.tagName)
    ensures ProcessPredictions([a, b]) == Ok(
      var h := if a.probability > b.probability then a else b;
      QualityVerdict(QualityCategory, h.tagName, h.probability))
  {
    CandidatesOfTwo(a, b);
    assert [a, b][..1] == [a];
  }

  lemma FreshTag()
    ensures Lower("Fresh") == "fresh" && IsQualityTag("Fresh")
  {
    assert Lower("Fresh") == "fresh";
  }

  lemma RottenTag()
    ensures Lower("Rotten") == "rotten" && IsQualityTag("Rotten")
  {
    assert Lower("Rotten") == "rotten";
  }

  lemma AppleTag()
    ensures !IsQualityTag("Apple")
  {
    assert Lower("Apple") == "apple";
  }

  /** Two equally probable quality labels: the later one is chosen, not the first. */
  lemma TieGoesToLater()
    ensures ProcessPredictions([Prediction("Fresh", 5000), Prediction("Rotten", 5000)])
         == Ok(QualityVerdict(QualityCategory, "Rotten", 5000))
  {
    FreshTag();
    RottenTag();
    ProcessTwoQuality(Prediction("Fresh", 5000), Prediction("Rotten", 5000));
  }

  /** Fresh at 92.50 beats Rotten at 5.00. */
  lemma FreshScenario()
    ensures ProcessPredictions([Prediction("Fresh", 9250), Prediction("Rotten", 500)])
         == Ok(QualityVerdict(QualityCategory, "Fresh", 9250))
  {
    FreshTag();
    RottenTag();
    ProcessTwoQuality(Prediction("Fresh", 9250), Prediction("Rotten", 500));
  }

  /** A label other than fresh or rotten never wins, however probable. */
  lemma OtherLabelIgnored()
    ensures ProcessPredictions([Prediction("Fresh", 1000), Prediction("Apple", 9900)])
         == Ok(QualityVerdict(QualityCategory, "Fresh", 1000))
  {
    FreshTag();
    AppleTag();
    CandidatesOfTwo(Prediction("Fresh", 1000), Prediction("Apple", 9900));
  }
}
