/** Fetching map pictures and recognising objects in them, as far as the
    application decides anything: the API-key guard both fetchers of both
    image-processing modules share, where a request is centred, how a
    response becomes a picture, and the confidence filter of the older
    object recogniser. The HTTP round trip, image decoding and the colour
    enhancement itself are opaque; their outcomes are parameters. */
module ImageFetch {
  import opened Base
  import ImageOrganizer

  datatype Image = Decoded(id: nat) | Enhanced(source: Image, boost: real)

  /** The response of the static-map or street-view endpoint; `content` is
      None when the body is not a picture the image library can open. */
  datatype Response = Response(status: int, content: Option<Image>)

  datatype Location = Coordinates(lat: real, lng: real) | Address(address: Option<string>)

  datatype Endpoint = StaticMap | StreetView

  datatype Request = Request(endpoint: Endpoint, location: Location, key: string)

  /** `not st.session_state.get("GOOGLE_MAPS_API_KEY")`: missing or empty. */
  predicate KeyMissing(key: Option<string>)
  {
    key.None? || key.value == ""
  }

  /** Coordinates win only when both are given. */
  function CentreOf(address: Option<string>, lat: Option<real>, lng: Option<real>): (l: Location)
    ensures l.Coordinates? <==> lat.Some? && lng.Some?
    ensures l.Coordinates? ==> l == Coordinates(lat.value, lng.value)
    ensures l.Address? ==> l.address == address
  {
    if lat.Some? && lng.Some? then Coordinates(lat.value, lng.value) else Address(address)
  }

  /** The picture a successful response yields: opened, then enhanced when asked. */
  function Opened(response: Response, enhance: bool, boost: real): (r: Option<Image>)
    ensures r.Some? <==> response.status == 200 && response.content.Some?
    ensures r.Some? ==> r.value == (if enhance then Enhanced(response.content.value, boost) else response.content.value)
  {
    if response.status != 200 || response.content.None? then None
    else if enhance then Some(Enhanced(response.content.value, boost))
    else Some(response.content.value)
  }

  /** `handle_api_response` of the older module: nothing for a status other
      than 200 or a body that does not open, otherwise the picture, enhanced
      only when `enhance_colors` is set. */
  function HandleApiResponse(response: Response, enhanceColors: bool, colorBoost: real): (r: Option<Image>)
    ensures response.status != 200 ==> r.None?
    ensures response.status == 200 && response.content.Some? && !enhanceColors ==> r == Some(response.content.value)
    ensures response.status == 200 && response.content.Some? && enhanceColors ==> r == Some(Enhanced(response.content.value, colorBoost))
    ensures response.status == 200 && response.content.None? ==> r.None?
  {
    Opened(response, enhanceColors, colorBoost)
  }

  /** What a fetch did: the request it sent, if any, and the picture. */
  datatype Fetch = Fetch(sent: Option<Request>, image: Option<Image>)

  /** Either fetcher of the current module. The session's `enhance_colors`
      defaults to true and `color_boost` to 1.5; `reply` stands for the
      endpoint's answer to the request (None when the request raises). */
  function FetchImage(endpoint: Endpoint, key: Option<string>, address: Option<string>, lat: Option<real>, lng: Option<real>,
                      enhanceColors: Option<bool>, colorBoost: Option<real>, reply: Option<Response>): (f: Fetch)
    ensures KeyMissing(key) ==> f == Fetch(None, None)
    ensures !KeyMissing(key) ==> f.sent == Some(Request(endpoint, CentreOf(address, lat, lng), key.value))
    ensures f.image.Some? ==> reply.Some? && reply.value.status == 200 && reply.value.content.Some?
  {
    if KeyMissing(key) then Fetch(None, None)
    else
      var request := Request(endpoint, CentreOf(address, lat, lng), key.value);
      var enhance := if enhanceColors.Some? then enhanceColors.value else true;
      var boost := if colorBoost.Some? then colorBoost.value else 1.5;
      match reply
      case None => Fetch(Some(request), None)
      case Some(response) => Fetch(Some(request), Opened(response, enhance, boost))
  }

  /** Either fetcher of the older module: the same guard, then the response
      handed to `HandleApiResponse`. */
  function FetchImageChecked(endpoint: Endpoint, key: Option<string>, address: Option<string>, lat: Option<real>, lng: Option<real>,
                             enhanceColors: bool, colorBoost: real, reply: Option<Response>): (f: Fetch)
    ensures KeyMissing(key) ==> f == Fetch(None, None)
    ensures !KeyMissing(key) ==> f.sent == Some(Request(endpoint, CentreOf(address, lat, lng), key.value))
  {
    if KeyMissing(key) then Fetch(None, None)
    else
      var request := Request(endpoint, CentreOf(address, lat, lng), key.value);
      match reply
      case None => Fetch(Some(request), None)
      case Some(response) => Fetch(Some(request), HandleApiResponse(response, enhanceColors, colorBoost))
  }

  /** With the session's defaults a current fetch enhances by 1.5, exactly
      as the older fetch asked to enhance by 1.5 does. */
  lemma DefaultFetchEnhances(endpoint: Endpoint, key: Option<string>, address: Option<string>, lat: Option<real>, lng: Option<real>, reply: Option<Response>)
    ensures FetchImage(endpoint, key, address, lat, lng, None, None, reply)
         == FetchImageChecked(endpoint, key, address, lat, lng, true, 1.5, reply)
    ensures !KeyMissing(key) && reply.Some? && reply.value.status == 200 && reply.value.content.Some? ==>
      FetchImage(endpoint, key, address, lat, lng, None, None, reply).image == Some(Enhanced(reply.value.content.value, 1.5))
  {
  }

  // ---------------------------------------------------------- recognition

  /** One detection: box centre and size, confidence, class id. */
  datatype Detection = Detection(x: real, y: real, width: real, height: real, confidence: real, classId: real)

  datatype Found = Found(objectLabel: string, confidence: real)

  const ClassLabels: seq<string> := ["building", "car", "tree"]

  /** The detections the recogniser reports for every picture. */
  const SimulatedDetections: seq<Detection> := [
    Detection(0.2, 0.3, 0.1, 0.2, 0.9, 0.0),
    Detection(0.5, 0.6, 0.05, 0.1, 0.8, 1.0),
    Detection(0.8, 0.2, 0.1, 0.2, 0.7, 2.0)
  ]

  /** The detections confident enough to report, in order. */
  function Confident(ds: seq<Detection>): (r: seq<Detection>)
    ensures |r| <= |ds|
    ensures forall i :: 0 <= i < |r| ==> r[i].confidence > 0.5 && r[i] in ds
  {
    if |ds| == 0 then []
    else
      var rest := Confident(ds[..|ds| - 1]);
      if ds[|ds| - 1].confidence > 0.5 then rest + [ds[|ds| - 1]] else rest
  }

  /** The labelled list the loop builds, or an IndexError when a kept
      detection's class id does not index the labels. */
  function Labelled(ds: seq<Detection>, labels: seq<string>): Result<seq<Found>, ImageOrganizer.IndexError>
  {
    if |ds| == 0 then Ok([])
    else
      match Labelled(ds[..|ds| - 1], labels)
      case Err(e) => Err(e)
      case Ok(found) =>
        var d := ds[|ds| - 1];
        if d.confidence <= 0.5 then Ok(found)
        else if ImageOrganizer.InBounds(|labels|, Trunc(d.classId)) then
          Ok(found + [Found(labels[ImageOrganizer.Wrap(|labels|, Trunc(d.classId))], d.confidence)])
        else Err(ImageOrganizer.IndexError)
  }

  /** Every class id in `kept` indexes the labels (negative ids count from the end). */
  predicate LabelsKnown(kept: seq<Detection>, labels: seq<string>)
  {
    forall i :: 0 <= i < |kept| ==> ImageOrganizer.InBounds(|labels|, Trunc(kept[i].classId))
  }

  function LabelOf(d: Detection, labels: seq<string>): Found
    requires ImageOrganizer.InBounds(|labels|, Trunc(d.classId))
  {
    Found(labels[ImageOrganizer.Wrap(|labels|, Trunc(d.classId))], d.confidence)
  }

  /** Labelling fails exactly when a confident detection's id is out of range. */
  lemma {:induction false} LabelledFails(ds: seq<Detection>, labels: seq<string>)
    ensures Labelled(ds, labels).Err? <==> !LabelsKnown(Confident(ds), labels)
  {
    if |ds| > 0 {
      var init := ds[..|ds| - 1];
      LabelledFails(init, labels);
      var d := ds[|ds| - 1];
      var kept := Confident(init);
      if d.confidence > 0.5 {
        assert Confident(ds) == kept + [d];
        if !LabelsKnown(kept, labels) {
          var i :| 0 <= i < |kept| && !ImageOrganizer.InBounds(|labels|, Trunc(kept[i].classId));
          assert Confident(ds)[i] == kept[i];
        }
        if !ImageOrganizer.InBounds(|labels|, Trunc(d.classId)) {
          assert Confident(ds)[|kept|] == d;
        } else if LabelsKnown(kept, labels) {
          forall i | 0 <= i < |kept| + 1
            ensures ImageOrganizer.InBounds(|labels|, Trunc(Confident(ds)[i].classId))
          {
            if i < |kept| {
              assert Confident(ds)[i] == kept[i];
            }
          }
        }
      } else {
        assert Confident(ds) == kept;
      }
    }
  }

  /** A successful labelling has one entry per confident detection, in
      order, with its confidence and the label its class id names. */
  lemma {:induction false} LabelledEntries(ds: seq<Detection>, labels: seq<string>)
    requires Labelled(ds, labels).Ok?
    ensures LabelsKnown(Confident(ds), labels)
    ensures var found, kept := Labelled(ds, labels).value, Confident(ds);
      |found| == |kept| && forall i :: 0 <= i < |kept| ==> found[i] == LabelOf(kept[i], labels)
  {
    LabelledFails(ds, labels);
    if |ds| > 0 {
      var init := ds[..|ds| - 1];
      LabelledEntries(init, labels);
      var d := ds[|ds| - 1];
      if d.confidence > 0.5 {
        assert Confident(ds) == Confident(init) + [d];
      }
    }
  }

  /** The detection loop of `recognize_objects`: confident detections are
      labelled in order; a class id outside the labels raises IndexError. */
  method ParseDetections(detections: seq<Detection>, labels: seq<string>)
    returns (r: Result<seq<Found>, ImageOrganizer.IndexError>)
    ensures r == Labelled(detections, labels)
  {
    var found: seq<Found> := [];
    var i := 0;
    while i < |detections|
      invariant 0 <= i <= |detections|
      invariant Labelled(detections[..i], labels) == Ok(found)
    {
      assert detections[..i + 1][..i] == detections[..i];
      var d := detections[i];
      if d.confidence > 0.5 {
        var id := Trunc(d.classId);
        if !ImageOrganizer.InBounds(|labels|, id) {
          LabelledFailureSticks(detections, labels, i + 1);
          assert Labelled(detections, labels).error.IndexError?;
          return Err(ImageOrganizer.IndexError);
        }
        found := found + [Found(labels[ImageOrganizer.Wrap(|labels|, id)], d.confidence)];
      }
      i := i + 1;
    }
    assert detections[..i] == detections;
    return Ok(found);
  }

  /** `recognize_objects`: None when converting the picture fails
      (`convertFails`), when a label lookup fails or when no detection is
      confident enough; otherwise the labelled list, which for the fixed
      detections is a building, a car and a tree. */
  method RecognizeObjects(image: Image, convertFails: bool) returns (r: Option<seq<Found>>)
    ensures convertFails ==> r.None?
    ensures !convertFails ==> r == Some([Found("building", 0.9), Found("car", 0.8), Found("tree", 0.7)])
  {
    if convertFails {
      return None;
    }
    var parsed := ParseDetections(SimulatedDetections, ClassLabels);
    SimulatedRecognition();
    match parsed {
      case Err(_) =>
        return None;
      case Ok(found) =>
        if |found| == 0 {
          return None;
        }
        return Some(found);
    }
  }

  /** A failed lookup in a prefix fails the whole list. */
  lemma {:induction false} LabelledFailureSticks(ds: seq<Detection>, labels: seq<string>, n: nat)
    requires n <= |ds| && Labelled(ds[..n], labels).Err?
    ensures Labelled(ds, labels).Err?
    decreases |ds| - n
  {
    if n < |ds| {
      assert ds[..n + 1][..n] == ds[..n];
      LabelledFailureSticks(ds, labels, n + 1);
    } else {
      assert ds[..n] == ds;
    }
  }

  /** One more confident detection with a known class adds its entry. */
  lemma LabelledSnoc(ds: seq<Detection>, d: Detection, labels: seq<string>, found: seq<Found>)
    requires Labelled(ds, labels) == Ok(found)
    requires d.confidence > 0.5 && ImageOrganizer.InBounds(|labels|, Trunc(d.classId))
    ensures Labelled(ds + [d], labels) == Ok(found + [LabelOf(d, labels)])
  {
    assert (ds + [d])[..|ds|] == ds;
  }

  /** Since the detections are fixed, every picture that converts is
      reported to hold a building, a car and a tree, in that order. */
  lemma SimulatedRecognition()
    ensures Labelled(SimulatedDetections, ClassLabels)
         == Ok([Found("building", 0.9), Found("car", 0.8), Found("tree", 0.7)])
  {
    var d0 := Detection(0.2, 0.3, 0.1, 0.2, 0.9, 0.0);
    var d1 := Detection(0.5, 0.6, 0.05, 0.1, 0.8, 1.0);
    var d2 := Detection(0.8, 0.2, 0.1, 0.2, 0.7, 2.0);
    assert Trunc(0.0) == 0 && Trunc(1.0) == 1 && Trunc(2.0) == 2;
    assert |ClassLabels| == 3;
    var s0: seq<Detection>, f0: seq<Found> := [], [];
    LabelledSnoc(s0, d0, ClassLabels, f0);
    var s1, f1 := s0 + [d0], f0 + [LabelOf(d0, ClassLabels)];
    LabelledSnoc(s1, d1, ClassLabels, f1);
    var s2, f2 := s1 + [d1], f1 + [LabelOf(d1, ClassLabels)];
    LabelledSnoc(s2, d2, ClassLabels, f2);
    assert s2 + [d2] == SimulatedDetections;
    assert f2 + [LabelOf(d2, ClassLabels)] == [Found("building", 0.9), Found("car", 0.8), Found("tree", 0.7)];
  }
}
