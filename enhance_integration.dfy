/** The enhancement front end: one lazily created deep-learning enhancer
    shared by every caller, a dispatcher choosing between it and the
    standard colour enhancement, and a batch loop reporting its progress.
    The two enhancement algorithms themselves are opaque: an enhanced image
    records what it was made from and with which settings. */
module EnhanceIntegration {
  import opened Base

  datatype Image =
    | Photo(id: nat)
    | Standard(of: Image, boostFactor: real)
    | Deep(of: Image, resolutionBoost: bool, removeNoise: bool, sharpen: bool)

  /** The deep-learning enhancer; its model weights are not modelled. */
  class DeepImageEnhancer {
    constructor ()
    {
    }
  }

  /** The keyword arguments of `smart_enhance_image`. */
  datatype Options = Options(useDeepEnhance: bool, boostFactor: real, resolutionBoost: bool, denoise: bool)

  /** The defaults: standard enhancement, colour boost 1.5, both deep
      switches on. */
  const DefaultOptions: Options := Options(false, 1.5, true, true)

  /** What `smart_enhance_image` returns: the deep path exactly when asked
      for, always sharpening and passing the resolution and noise switches
      through; otherwise the standard path with only the colour boost. */
  function SmartEnhanced(image: Image, o: Options): (r: Image)
    ensures r.Deep? <==> o.useDeepEnhance
    ensures r.Standard? <==> !o.useDeepEnhance
    ensures r.of == image
    ensures r.Deep? ==> r.sharpen && r.resolutionBoost == o.resolutionBoost && r.removeNoise == o.denoise
    ensures r.Standard? ==> r.boostFactor == o.boostFactor
  {
    if o.useDeepEnhance then Deep(image, o.resolutionBoost, o.denoise, true)
    else Standard(image, o.boostFactor)
  }

  /** With no options given, an image gets the standard enhancement with
      boost 1.5. */
  lemma DefaultIsStandard(image: Image)
    ensures SmartEnhanced(image, DefaultOptions) == Standard(image, 1.5)
  {
  }

  /** One call of the progress callback: before image `index` of `total`,
      or the closing report. */
  datatype Report = Step(index: nat, total: nat) | Complete

  /** The fraction the callback receives: `i / total` before image `i`,
      1.0 at the end. */
  function Fraction(r: Report): real
  {
    match r
    case Step(i, total) => if total == 0 then 0.0 else i as real / total as real
    case Complete => 1.0
  }

  /** The message the callback receives. */
  function Message(r: Report): string
  {
    match r
    case Step(i, total) => "Enhancing image " + IntToString(i + 1) + "/" + IntToString(total)
    case Complete => "Enhancement complete"
  }

  /** The reports a batch of `total` images makes with a callback: the first
      `k` per-image reports and, once all are done, the closing one. */
  function Reports(k: nat, total: nat): seq<Report>
  {
    if k == 0 then [] else Reports(k - 1, total) + [Step(k - 1, total)]
  }

  /** The whole sequence of reports of a batch. */
  function BatchReports(total: nat): seq<Report>
  {
    Reports(total, total) + [Complete]
  }

  lemma {:induction false} ReportsAt(k: nat, total: nat)
    ensures |Reports(k, total)| == k
    ensures forall i :: 0 <= i < k ==> Reports(k, total)[i] == Step(i, total)
  {
    if k > 0 {
      ReportsAt(k - 1, total);
    }
  }

  lemma FractionsRise(i: nat, j: nat, total: nat)
    requires i < j < total
    ensures 0.0 <= Fraction(Step(i, total)) < Fraction(Step(j, total)) < 1.0
  {
    assert Fraction(Step(j, total)) < 1.0 by {
      assert (j as real / total as real) * total as real == j as real;
    }
  }

  /** A batch reports once per image and then once more; the per-image
      fractions are `i / total`, start at 0, rise strictly and stay below 1;
      the last report is 1.0; an empty batch reports only that. */
  lemma BatchReportFacts(total: nat)
    ensures |BatchReports(total)| == total + 1
    ensures BatchReports(total)[total] == Complete
    ensures total == 0 ==> BatchReports(total) == [Complete]
    ensures forall i :: 0 <= i < total ==> BatchReports(total)[i] == Step(i, total)
    ensures forall i :: 0 <= i < total ==> 0.0 <= Fraction(BatchReports(total)[i]) < 1.0
    ensures forall i, j :: 0 <= i < j < total ==> Fraction(BatchReports(total)[i]) < Fraction(BatchReports(total)[j])
    ensures total > 0 ==> Fraction(BatchReports(total)[0]) == 0.0
    ensures Fraction(BatchReports(total)[total]) == 1.0
  {
    ReportsAt(total, total);
    var r := BatchReports(total);
    forall i, j | 0 <= i < j < total
      ensures Fraction(r[i]) < Fraction(r[j])
    {
      FractionsRise(i, j, total);
    }
    forall i | 0 <= i < total
      ensures 0.0 <= Fraction(r[i]) < 1.0
    {
      if i + 1 < total {
        FractionsRise(i, i + 1, total);
      }
    }
  }

  /** The module with its lazily set `_deep_enhancer`. */
  class Enhancement {
    var deepEnhancer: DeepImageEnhancer?
    /** How many deep enhancers have been constructed. */
    ghost var instances: nat

    ghost predicate Valid()
      reads this
    {
      instances == if deepEnhancer == null then 0 else 1
    }

    /** At import no enhancer exists. */
    constructor ()
      ensures Valid() && deepEnhancer == null
    {
      deepEnhancer := null;
      instances := 0;
    }

    /** `get_deep_enhancer`: the first call creates the enhancer, every later
        call returns that same one; never more than one is made. */
    method GetDeepEnhancer() returns (e: DeepImageEnhancer)
      requires Valid()
      modifies this
      ensures Valid() && deepEnhancer == e && instances == 1
      ensures old(deepEnhancer) != null ==> e == old(deepEnhancer) && instances == old(instances)
      ensures old(deepEnhancer) == null ==> fresh(e)
    {
      if deepEnhancer == null {
        deepEnhancer := new DeepImageEnhancer();
        instances := instances + 1;
      }
      e := deepEnhancer;
    }

    /** `smart_enhance_image`: the dispatch `SmartEnhanced` describes; only
        the deep path touches, and possibly creates, the shared enhancer. */
    method SmartEnhanceImage(image: Image, o: Options) returns (r: Image)
      requires Valid()
      modifies this
      ensures Valid() && r == SmartEnhanced(image, o)
      ensures o.useDeepEnhance ==> deepEnhancer != null
      ensures old(deepEnhancer) != null ==> deepEnhancer == old(deepEnhancer)
      ensures !o.useDeepEnhance ==> deepEnhancer == old(deepEnhancer) && instances == old(instances)
    {
      if o.useDeepEnhance {
        var enhancer := GetDeepEnhancer();
        r := Deep(image, o.resolutionBoost, o.denoise, true);
      } else {
        r := Standard(image, o.boostFactor);
      }
    }

    /** `batch_enhance_images`: image `i` of the result is input `i`
        enhanced with the same options; with a callback, the reports are
        `BatchReports`, without one there are none. */
    method BatchEnhanceImages(images: seq<Image>, hasCallback: bool, o: Options)
      returns (r: seq<Image>, reports: seq<Report>)
      requires Valid()
      modifies this
      ensures Valid()
      ensures |r| == |images|
      ensures forall i :: 0 <= i < |images| ==> r[i] == SmartEnhanced(images[i], o)
      ensures reports == if hasCallback then BatchReports(|images|) else []
      ensures old(deepEnhancer) != null ==> deepEnhancer == old(deepEnhancer)
      ensures !o.useDeepEnhance ==> deepEnhancer == old(deepEnhancer)
      ensures o.useDeepEnhance && |images| > 0 ==> deepEnhancer != null
      ensures |images| == 0 ==> deepEnhancer == old(deepEnhancer)
    {
      r := [];
      reports := [];
      var total := |images|;
      var i := 0;
      while i < total
        invariant 0 <= i <= total
        invariant Valid()
        invariant |r| == i
        invariant forall k :: 0 <= k < i ==> r[k] == SmartEnhanced(images[k], o)
        invariant reports == if hasCallback then Reports(i, total) else []
        invariant old(deepEnhancer) != null ==> deepEnhancer == old(deepEnhancer)
        invariant !o.useDeepEnhance ==> deepEnhancer == old(deepEnhancer)
        invariant o.useDeepEnhance && i > 0 ==> deepEnhancer != null
        invariant i == 0 ==> deepEnhancer == old(deepEnhancer)
      {
        if hasCallback {
          reports := reports + [Step(i, total)];
        }
        var enhanced := SmartEnhanceImage(images[i], o);
        r := r + [enhanced];
        i := i + 1;
      }
      if hasCallback {
        reports := reports + [Complete];
      }
    }
  }
}
