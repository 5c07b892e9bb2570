/** The two pure fragments of the form handler (frontend.py): what the submitted URL
    becomes before `process_url` sees it, and the label shown next to the rating. */
module Frontend {
  import opened Text

  /** The URL carries one of the two schemes the form accepts as they are, compared with
      `startswith`, so case-sensitively. */
  predicate HasScheme(url: string) {
    StartsWith(url, "http://") || StartsWith(url, "https://")
  }

  /** What pressing the button does with the input: a warning when it is empty, otherwise an
      analysis of the URL. */
  datatype Submission = Warning | Analyse(url: string)

  /** frontend.py:107-113: an empty input is refused and `process_url` is not called; an
      input without a scheme gets "https://" put in front; any other input is kept. */
  function Submit(input: string): (r: Submission)
    ensures r.Warning? <==> input == []
    ensures r.Analyse? ==> HasScheme(r.url)
    ensures r.Analyse? ==> r.url == input || r.url == "https://" + input
    ensures HasScheme(input) ==> r == Analyse(input)
  {
    if input == [] then Warning
    else if HasScheme(input) then Analyse(input)
    else
      var url := "https://" + input;
      assert url[..|"https://"|] == "https://";
      Analyse(url)
  }

  /** Normalising twice is normalising once. */
  lemma SubmitIdempotent(input: string)
    requires Submit(input).Analyse?
    ensures Submit(Submit(input).url) == Submit(input)
  {
  }

  /** The scheme test is case-sensitive: an upper-case scheme is not recognised, and the URL
      gets a second one. */
  lemma UpperCaseSchemeIsPrefixed()
    ensures Submit("HTTP://x") == Analyse("https://HTTP://x")
  {
    assert !StartsWith("HTTP://x", "http://") by {
      assert "HTTP://x"[0] != "http://"[0];
    }
    assert !StartsWith("HTTP://x", "https://") by {
      assert "HTTP://x"[0] != "https://"[0];
    }
  }

  /** The label of the rating metric. */
  datatype Band = Excelente | Bom | Regular | Ruim

  /** frontend.py:183-191: the if/elif chain on the rating. */
  function BandOf(rating: int): (b: Band)
    ensures b == Excelente <==> rating >= 8
    ensures b == Bom <==> 6 <= rating < 8
    ensures b == Regular <==> 4 <= rating < 6
    ensures b == Ruim <==> rating < 4
  {
    if rating >= 8 then Excelente
    else if rating >= 6 then Bom
    else if rating >= 4 then Regular
    else Ruim
  }

  /** The bands in increasing order. */
  function BandRank(b: Band): nat {
    match b
    case Ruim => 0
    case Regular => 1
    case Bom => 2
    case Excelente => 3
  }

  /** A higher rating never gets a lower band. */
  lemma BandMonotone(a: int, b: int)
    requires a <= b
    ensures BandRank(BandOf(a)) <= BandRank(BandOf(b))
  {
  }

  /** The ratings outside 1..10 that the pipeline can produce fall into the end bands: 0
      (no rating found) and any negative value are Ruim, and an unclamped value above 10
      is Excelente. */
  lemma BandEnds(rating: int)
    ensures rating <= 0 ==> BandOf(rating) == Ruim
    ensures rating > 10 ==> BandOf(rating) == Excelente
  {
  }
}
