/** What the photo resolver promises, proved about its specification
    (ImagesRoute.Resolve and the two scans it is built from): the calls it
    makes and in which order, that the nested search is a first-match search
    over the concatenated candidate lists, how failures surface, and how many
    calls a request can cost. */
module ImagesProperties {
  import opened Upstream
  import opened PlacesApi
  import opened ImagesRoute

  /** The places of a nearby list other than the target, in list order:
      exactly the places of the list whose id is not the target's. */
  function Candidates(target: string, places: seq<NearbyPlace>): (c: seq<NearbyPlace>)
    ensures |c| <= |places|
    ensures forall i :: 0 <= i < |c| ==> c[i].id != target
    ensures forall p :: p in c <==> p in places && p.id != target
  {
    if places == [] then []
    else if places[0].id == target then Candidates(target, places[1..])
    else [places[0]] + Candidates(target, places[1..])
  }

  /** Filtering keeps list order: the candidates of two lists one after the
      other are those of the first followed by those of the second. */
  lemma {:induction false} CandidatesAppend(target: string, a: seq<NearbyPlace>, b: seq<NearbyPlace>)
    ensures Candidates(target, a + b) == Candidates(target, a) + Candidates(target, b)
    decreases |a|
  {
    if a != [] {
      var ab := a + b;
      assert ab[0] == a[0];
      assert ab[1..] == a[1..] + b;
      CandidatesAppend(target, a[1..], b);
    } else {
      assert a + b == b;
    }
  }

  /** The detail lookups of the places in `ps`, in order. */
  function Lookups(ps: seq<NearbyPlace>): seq<Call>
  {
    seq(|ps|, i requires 0 <= i < |ps| => DetailsCall(ps[i].id))
  }

  /** The detail lookups among `calls`, in order. */
  function LookupsIn(calls: seq<Call>): seq<Call>
  {
    if calls == [] then []
    else if calls[0].DetailsCall? then [calls[0]] + LookupsIn(calls[1..])
    else LookupsIn(calls[1..])
  }

  /** The radii of the nearby searches among `calls`, in order. */
  function RadiiIn(calls: seq<Call>): seq<nat>
  {
    if calls == [] then []
    else if calls[0].NearbyCall? then [calls[0].radius] + RadiiIn(calls[1..])
    else RadiiIn(calls[1..])
  }

  lemma {:induction false} LookupsInAppend(a: seq<Call>, b: seq<Call>)
    ensures LookupsIn(a + b) == LookupsIn(a) + LookupsIn(b)
    decreases |a|
  {
    if a == [] {
      assert a + b == b;
    } else {
      var ab := a + b;
      assert ab[0] == a[0];
      assert ab[1..] == a[1..] + b;
      LookupsInAppend(a[1..], b);
    }
  }

  lemma {:induction false} RadiiInAppend(a: seq<Call>, b: seq<Call>)
    ensures RadiiIn(a + b) == RadiiIn(a) + RadiiIn(b)
    decreases |a|
  {
    if a == [] {
      assert a + b == b;
    } else {
      var ab := a + b;
      assert ab[0] == a[0];
      assert ab[1..] == a[1..] + b;
      RadiiInAppend(a[1..], b);
    }
  }

  /** A sequence made only of detail lookups keeps all of them and holds no
      nearby search. */
  lemma {:induction false} OnlyLookups(calls: seq<Call>)
    requires forall i :: 0 <= i < |calls| ==> calls[i].DetailsCall?
    ensures LookupsIn(calls) == calls
    ensures RadiiIn(calls) == []
  {
    if calls != [] {
      OnlyLookups(calls[1..]);
    }
  }

  // ---------------------------------------------------------------------
  // The inner loop: which places it looks up, and in which order.

  /** One radius's scan looks up the candidates (the places other than the
      target) in list order, each at most once, and stops at the first lookup
      that fails or finds a photo; when it is exhausted it has looked up all
      of them. */
  lemma {:induction false} ScanPlacesLookups(target: string, key: string,
                                             details: string -> Outcome<PlaceDetails>,
                                             places: seq<NearbyPlace>)
    ensures var run := ScanPlaces(target, key, details, places);
            && |run.calls| <= |Candidates(target, places)|
            && run.calls == Lookups(Candidates(target, places))[..|run.calls|]
            && (run.result.Exhausted? ==> run.calls == Lookups(Candidates(target, places)))
  {
    if places != [] {
      var rest := places[1..];
      ScanPlacesLookups(target, key, details, rest);
      if places[0].id != target {
        var restRun := ScanPlaces(target, key, details, rest);
        var later := Lookups(Candidates(target, rest));
        var call := DetailsCall(places[0].id);
        LookupsCons(places[0], Candidates(target, rest));
        if details(places[0].id).Done? && !HasPhotos(details(places[0].id).value) {
          ConsPrefix(call, later, |restRun.calls|);
        } else {
          ConsPrefix(call, later, 0);
        }
      }
    }
  }

  lemma LookupsCons(p: NearbyPlace, ps: seq<NearbyPlace>)
    ensures Lookups([p] + ps) == [DetailsCall(p.id)] + Lookups(ps)
  {
    assert forall i :: 1 <= i <= |ps| ==> ([p] + ps)[i] == ps[i - 1];
  }

  lemma ConsPrefix<T>(x: T, s: seq<T>, n: nat)
    requires n <= |s|
    ensures ([x] + s)[..n + 1] == [x] + s[..n]
  {
  }

  /** Every call among `calls` is a detail lookup of a place other than
      `target`. */
  predicate LooksUpOthers(calls: seq<Call>, target: string)
  {
    forall i :: 0 <= i < |calls| ==> calls[i].DetailsCall? && calls[i].placeId != target
  }

  /** Hence every call of a scan is a detail lookup, and the target itself
      is never looked up. */
  lemma ScanPlacesOrder(target: string, key: string,
                        details: string -> Outcome<PlaceDetails>,
                        places: seq<NearbyPlace>)
    ensures LooksUpOthers(ScanPlaces(target, key, details, places).calls, target)
  {
    ScanPlacesLookups(target, key, details, places);
    var run := ScanPlaces(target, key, details, places);
    var cands := Candidates(target, places);
    forall i | 0 <= i < |run.calls|
      ensures run.calls[i].DetailsCall? && run.calls[i].placeId != target
    {
      assert run.calls[i] == Lookups(cands)[i] == DetailsCall(cands[i].id);
    }
  }

  // ---------------------------------------------------------------------
  // The inner loop as a first-match search.

  /** A place the scan walks past: the target, or one whose lookup succeeds
      without photos. */
  predicate Passes(target: string, details: string -> Outcome<PlaceDetails>, p: NearbyPlace)
  {
    p.id == target || (details(p.id).Done? && !HasPhotos(details(p.id).value))
  }

  /** A place whose photo the scan takes: not the target, and its lookup
      succeeds with photos. */
  predicate Matches(target: string, details: string -> Outcome<PlaceDetails>, p: NearbyPlace)
  {
    p.id != target && details(p.id).Done? && HasPhotos(details(p.id).value)
  }

  /** The photo a matching place supplies: its first photo, labelled with its
      display name. */
  function MatchPhoto(details: string -> Outcome<PlaceDetails>, key: string, p: NearbyPlace): ResolvedPhoto
    requires details(p.id).Done? && HasPhotos(details(p.id).value)
  {
    ResolvedPhoto(FirstPhotoUrl(details(p.id).value, key), Some(p.displayName))
  }

  /** `places[k]` is the first place that matches, and every place before it
      is walked past. */
  predicate FirstMatchAt(target: string, details: string -> Outcome<PlaceDetails>,
                         places: seq<NearbyPlace>, k: int)
  {
    && 0 <= k < |places|
    && Matches(target, details, places[k])
    && forall j :: 0 <= j < k ==> Passes(target, details, places[j])
  }

  /** The inner loop returns the photo of the first matching place, finds
      something only when there is a first match, and is exhausted exactly
      when every place is walked past. */
  lemma {:induction false} ScanPlacesFirstMatch(target: string, key: string,
                                                details: string -> Outcome<PlaceDetails>,
                                                places: seq<NearbyPlace>)
    ensures forall k :: FirstMatchAt(target, details, places, k) ==>
              ScanPlaces(target, key, details, places).result == Found(MatchPhoto(details, key, places[k]))
    ensures ScanPlaces(target, key, details, places).result.Found? ==>
              exists k :: FirstMatchAt(target, details, places, k)
    ensures ScanPlaces(target, key, details, places).result.Exhausted? <==>
              forall j :: 0 <= j < |places| ==> Passes(target, details, places[j])
  {
    if places != [] {
      var rest := places[1..];
      ScanPlacesFirstMatch(target, key, details, rest);
      forall k | 1 <= k && FirstMatchAt(target, details, places, k)
        ensures FirstMatchAt(target, details, rest, k - 1)
      {
        forall j | 0 <= j < k - 1 ensures Passes(target, details, rest[j]) {
          assert rest[j] == places[j + 1];
        }
      }
      forall k | FirstMatchAt(target, details, rest, k) && Passes(target, details, places[0])
        ensures FirstMatchAt(target, details, places, k + 1)
      {
        forall j | 0 <= j < k + 1 ensures Passes(target, details, places[j]) {
          if j > 0 { assert places[j] == rest[j - 1]; }
        }
      }
      if (forall j :: 0 <= j < |rest| ==> Passes(target, details, rest[j])) && Passes(target, details, places[0]) {
        forall j | 0 <= j < |places| ensures Passes(target, details, places[j]) {
          if j > 0 { assert places[j] == rest[j - 1]; }
        }
      }
      if forall j :: 0 <= j < |places| ==> Passes(target, details, places[j]) {
        assert Passes(target, details, places[0]);
        forall j | 0 <= j < |rest| ensures Passes(target, details, rest[j]) {
          assert rest[j] == places[j + 1];
        }
      }
      if Matches(target, details, places[0]) {
        assert FirstMatchAt(target, details, places, 0);
      }
    }
  }

  // ---------------------------------------------------------------------
  // The outer loop as one flat search.

  /** Every nearby search of the radii succeeds. */
  predicate SearchesSucceed(center: Location, nearby: (Location, nat) -> Outcome<NearbyResult>, radii: seq<nat>)
  {
    forall k :: 0 <= k < |radii| ==> nearby(center, radii[k]).Done?
  }

  /** The nearby lists of the radii, concatenated in radius order (up to the
      first failing search). */
  function Pool(center: Location, nearby: (Location, nat) -> Outcome<NearbyResult>, radii: seq<nat>): seq<NearbyPlace>
    decreases |radii|
  {
    if radii == [] then []
    else
      match nearby(center, radii[0])
      case Threw => []
      case Done(found) => PlacesOrEmpty(found) + Pool(center, nearby, radii[1..])
  }

  /** Scanning two lists one after the other is scanning their
      concatenation. */
  lemma {:induction false} ScanPlacesAppend(target: string, key: string,
                                            details: string -> Outcome<PlaceDetails>,
                                            a: seq<NearbyPlace>, b: seq<NearbyPlace>)
    ensures ScanPlaces(target, key, details, a + b)
         == After(ScanPlaces(target, key, details, a), ScanPlaces(target, key, details, b))
  {
    if a == [] {
      assert a + b == b;
    } else {
      assert (a + b)[0] == a[0] && (a + b)[1..] == a[1..] + b;
      ScanPlacesAppend(target, key, details, a[1..], b);
      if a[0].id != target && details(a[0].id).Done? && !HasPhotos(details(a[0].id).value) {
        AfterThen([DetailsCall(a[0].id)], ScanPlaces(target, key, details, a[1..]),
                  ScanPlaces(target, key, details, b));
      }
    }
  }

  /** When every nearby search succeeds, the nested search over the radii
      finds what one scan of all their places, in (radius, position) order,
      finds, and it makes the same lookups in the same order. */
  lemma {:induction false} ScanRadiiIsFlatScan(target: string, key: string, center: Location,
                                               details: string -> Outcome<PlaceDetails>,
                                               nearby: (Location, nat) -> Outcome<NearbyResult>,
                                               radii: seq<nat>)
    requires SearchesSucceed(center, nearby, radii)
    ensures ScanRadii(target, key, center, details, nearby, radii).result
         == ScanPlaces(target, key, details, Pool(center, nearby, radii)).result
    ensures LookupsIn(ScanRadii(target, key, center, details, nearby, radii).calls)
         == ScanPlaces(target, key, details, Pool(center, nearby, radii)).calls
  {
    if radii != [] {
      var rest := radii[1..];
      assert SearchesSucceed(center, nearby, rest) by {
        forall k | 0 <= k < |rest| ensures nearby(center, rest[k]).Done? {
          assert rest[k] == radii[k + 1];
        }
      }
      ScanRadiiIsFlatScan(target, key, center, details, nearby, rest);
      assert nearby(center, radii[0]).Done?;
      var list := PlacesOrEmpty(nearby(center, radii[0]).value);
      var scan := ScanPlaces(target, key, details, list);
      var later := ScanRadii(target, key, center, details, nearby, rest);
      ScanPlacesAppend(target, key, details, list, Pool(center, nearby, rest));
      ScanPlacesOrder(target, key, details, list);
      OnlyLookups(scan.calls);
      LookupsInAppend([NearbyCall(center, radii[0], MaxResultCount)], After(scan, later).calls);
      if scan.result.Exhausted? {
        LookupsInAppend(scan.calls, later.calls);
      }
    }
  }

  // ---------------------------------------------------------------------
  // The outer loop: radii in order, a larger one only after a smaller one
  // was exhausted.

  /** Every nearby search among `calls` is centred on `center` and asks for
      at most `MaxResultCount` places, and no lookup among them is of
      `target`. */
  predicate Aimed(calls: seq<Call>, center: Location, target: string)
  {
    forall i :: 0 <= i < |calls| ==>
      && (calls[i].NearbyCall? ==> calls[i].center == center && calls[i].maxResultCount == MaxResultCount)
      && (calls[i].DetailsCall? ==> calls[i].placeId != target)
  }

  lemma AimedAppend(a: seq<Call>, b: seq<Call>, center: Location, target: string)
    requires Aimed(a, center, target) && Aimed(b, center, target)
    ensures Aimed(a + b, center, target)
  {
    forall i | 0 <= i < |a + b|
      ensures (a + b)[i] == if i < |a| then a[i] else b[i - |a|]
    {
    }
  }

  /** Every nearby search is centred on the target's location and asks for
      at most ten places, and no lookup is of the target. */
  lemma {:induction false} ScanRadiiCalls(target: string, key: string, center: Location,
                                          details: string -> Outcome<PlaceDetails>,
                                          nearby: (Location, nat) -> Outcome<NearbyResult>,
                                          radii: seq<nat>)
    ensures Aimed(ScanRadii(target, key, center, details, nearby, radii).calls, center, target)
  {
    if radii != [] {
      var call := NearbyCall(center, radii[0], MaxResultCount);
      match nearby(center, radii[0])
      case Threw =>
        assert Aimed([call], center, target);
      case Done(found) =>
        var scan := ScanPlaces(target, key, details, PlacesOrEmpty(found));
        var later := ScanRadii(target, key, center, details, nearby, radii[1..]);
        ScanPlacesOrder(target, key, details, PlacesOrEmpty(found));
        assert LooksUpOthers(scan.calls, target);
        assert Aimed(scan.calls, center, target);
        ScanRadiiCalls(target, key, center, details, nearby, radii[1..]);
        if scan.result.Exhausted? {
          AimedAppend(scan.calls, later.calls, center, target);
        }
        assert Aimed([call], center, target);
        AimedAppend([call], After(scan, later).calls, center, target);
    }
  }

  /** The radii searched by one step of the outer loop: its own, followed by
      those of the remaining radii only when its scan was exhausted. */
  lemma RadiiOfStep(target: string, key: string, center: Location,
                    details: string -> Outcome<PlaceDetails>,
                    nearby: (Location, nat) -> Outcome<NearbyResult>,
                    radii: seq<nat>)
    requires radii != []
    ensures var searched := RadiiIn(ScanRadii(target, key, center, details, nearby, radii).calls);
            var later := ScanRadii(target, key, center, details, nearby, radii[1..]);
            if nearby(center, radii[0]).Done? &&
               ScanPlaces(target, key, details, PlacesOrEmpty(nearby(center, radii[0]).value)).result.Exhausted?
            then searched == [radii[0]] + RadiiIn(later.calls)
            else searched == [radii[0]]
  {
    var call := NearbyCall(center, radii[0], MaxResultCount);
    var run := ScanRadii(target, key, center, details, nearby, radii);
    match nearby(center, radii[0])
    case Threw =>
      assert run.calls == [call];
      assert RadiiIn(run.calls) == [radii[0]];
    case Done(found) =>
      var scan := ScanPlaces(target, key, details, PlacesOrEmpty(found));
      var later := ScanRadii(target, key, center, details, nearby, radii[1..]);
      var step := After(scan, later);
      assert run.calls == [call] + step.calls;
      ScanPlacesNoRadii(target, key, details, PlacesOrEmpty(found));
      RadiiInAppend([call], step.calls);
      if scan.result.Exhausted? {
        assert step.calls == scan.calls + later.calls;
        RadiiInAppend(scan.calls, later.calls);
      } else {
        assert step.calls == scan.calls;
      }
  }

  /** A scan of one radius's places makes no nearby search. */
  lemma {:induction false} ScanPlacesNoRadii(target: string, key: string,
                                             details: string -> Outcome<PlaceDetails>,
                                             places: seq<NearbyPlace>)
    ensures RadiiIn(ScanPlaces(target, key, details, places).calls) == []
  {
    if places != [] {
      var rest := places[1..];
      ScanPlacesNoRadii(target, key, details, rest);
      if places[0].id != target && details(places[0].id).Done? && !HasPhotos(details(places[0].id).value) {
        RadiiInAppend([DetailsCall(places[0].id)], ScanPlaces(target, key, details, rest).calls);
      }
    }
  }

  /** The nearby searches are made with the radii in their given order, each
      at most once. */
  lemma {:induction false} RadiiInOrder(target: string, key: string, center: Location,
                                        details: string -> Outcome<PlaceDetails>,
                                        nearby: (Location, nat) -> Outcome<NearbyResult>,
                                        radii: seq<nat>)
    ensures var searched := RadiiIn(ScanRadii(target, key, center, details, nearby, radii).calls);
            |searched| <= |radii| && searched == radii[..|searched|]
  {
    if radii != [] {
      var rest := radii[1..];
      var later := ScanRadii(target, key, center, details, nearby, rest);
      RadiiOfStep(target, key, center, details, nearby, radii);
      RadiiInOrder(target, key, center, details, nearby, rest);
      var m := |RadiiIn(later.calls)|;
      assert radii[..m + 1] == [radii[0]] + rest[..m];
      assert radii[..1] == [radii[0]];
    }
  }

  /** The search at a radius is followed by the next radius only when every
      candidate of that radius was looked up without a photo being found. */
  lemma {:induction false} RadiiExhaustedBefore(target: string, key: string, center: Location,
                                                details: string -> Outcome<PlaceDetails>,
                                                nearby: (Location, nat) -> Outcome<NearbyResult>,
                                                radii: seq<nat>)
    ensures forall k :: 0 <= k < |RadiiIn(ScanRadii(target, key, center, details, nearby, radii).calls)| - 1 ==>
              && k < |radii|
              && nearby(center, radii[k]).Done?
              && ScanPlaces(target, key, details, PlacesOrEmpty(nearby(center, radii[k]).value)).calls
                 == Lookups(Candidates(target, PlacesOrEmpty(nearby(center, radii[k]).value)))
              && ScanPlaces(target, key, details, PlacesOrEmpty(nearby(center, radii[k]).value)).result.Exhausted?
  {
    if radii == [] {
      assert RadiiIn(ScanRadii(target, key, center, details, nearby, radii).calls) == [];
    } else {
      var run := ScanRadii(target, key, center, details, nearby, radii);
      var rest := radii[1..];
      var later := ScanRadii(target, key, center, details, nearby, rest);
      RadiiOfStep(target, key, center, details, nearby, radii);
      RadiiInOrder(target, key, center, details, nearby, radii);
      if nearby(center, radii[0]).Done? &&
         ScanPlaces(target, key, details, PlacesOrEmpty(nearby(center, radii[0]).value)).result.Exhausted? {
        RadiiExhaustedBefore(target, key, center, details, nearby, rest);
        ScanPlacesLookups(target, key, details, PlacesOrEmpty(nearby(center, radii[0]).value));
        assert RadiiIn(run.calls) == [radii[0]] + RadiiIn(later.calls);
        forall k | 0 <= k < |RadiiIn(run.calls)| - 1
          ensures k < |radii|
          ensures nearby(center, radii[k]).Done?
          ensures ScanPlaces(target, key, details, PlacesOrEmpty(nearby(center, radii[k]).value)).calls
                  == Lookups(Candidates(target, PlacesOrEmpty(nearby(center, radii[k]).value)))
          ensures ScanPlaces(target, key, details, PlacesOrEmpty(nearby(center, radii[k]).value)).result.Exhausted?
        {
          if k > 0 {
            assert k - 1 < |RadiiIn(later.calls)| - 1;
            assert radii[k] == rest[k - 1];
          }
        }
      } else {
        assert RadiiIn(run.calls) == [radii[0]];
      }
    }
  }

  // ---------------------------------------------------------------------
  // Failures: the first failing call ends the request with a 500.

  /** The upstream step behind a call threw. */
  predicate CallFailed(c: Call, details: string -> Outcome<PlaceDetails>,
                       nearby: (Location, nat) -> Outcome<NearbyResult>)
  {
    match c
    case DetailsCall(id) => details(id).Threw?
    case NearbyCall(center, radius, _) => nearby(center, radius).Threw?
  }

  predicate NoneFailed(calls: seq<Call>, details: string -> Outcome<PlaceDetails>,
                       nearby: (Location, nat) -> Outcome<NearbyResult>)
  {
    forall i :: 0 <= i < |calls| ==> !CallFailed(calls[i], details, nearby)
  }

  /** The last call failed and no call before it did. */
  predicate StoppedAtFailure(calls: seq<Call>, details: string -> Outcome<PlaceDetails>,
                             nearby: (Location, nat) -> Outcome<NearbyResult>)
  {
    && |calls| > 0
    && CallFailed(calls[|calls| - 1], details, nearby)
    && NoneFailed(calls[..|calls| - 1], details, nearby)
  }

  lemma PrependOk(c: Call, calls: seq<Call>, details: string -> Outcome<PlaceDetails>,
                  nearby: (Location, nat) -> Outcome<NearbyResult>)
    requires !CallFailed(c, details, nearby)
    ensures NoneFailed(calls, details, nearby) ==> NoneFailed([c] + calls, details, nearby)
    ensures StoppedAtFailure(calls, details, nearby) ==> StoppedAtFailure([c] + calls, details, nearby)
  {
    if StoppedAtFailure(calls, details, nearby) {
      assert ([c] + calls)[..|calls|] == [c] + calls[..|calls| - 1];
    }
  }

  lemma AppendAfterOk(a: seq<Call>, b: seq<Call>, details: string -> Outcome<PlaceDetails>,
                      nearby: (Location, nat) -> Outcome<NearbyResult>)
    requires NoneFailed(a, details, nearby)
    ensures NoneFailed(b, details, nearby) ==> NoneFailed(a + b, details, nearby)
    ensures StoppedAtFailure(b, details, nearby) ==> StoppedAtFailure(a + b, details, nearby)
  {
    if StoppedAtFailure(b, details, nearby) {
      assert (a + b)[..|a + b| - 1] == a + b[..|b| - 1];
    }
  }

  /** The inner loop fails exactly when its last lookup threw, and no earlier
      lookup did; otherwise none of its lookups threw. */
  lemma {:induction false} ScanPlacesFailure(target: string, key: string,
                                             details: string -> Outcome<PlaceDetails>,
                                             nearby: (Location, nat) -> Outcome<NearbyResult>,
                                             places: seq<NearbyPlace>)
    ensures ScanPlaces(target, key, details, places).result.Failed? ==>
              StoppedAtFailure(ScanPlaces(target, key, details, places).calls, details, nearby)
    ensures !ScanPlaces(target, key, details, places).result.Failed? ==>
              NoneFailed(ScanPlaces(target, key, details, places).calls, details, nearby)
  {
    if places != [] {
      ScanPlacesFailure(target, key, details, nearby, places[1..]);
      if places[0].id != target {
        var call := DetailsCall(places[0].id);
        match details(places[0].id)
        case Threw =>
          assert [call][..0] == [];
        case Done(d) =>
          if !HasPhotos(d) {
            PrependOk(call, ScanPlaces(target, key, details, places[1..]).calls, details, nearby);
          }
      }
    }
  }

  /** The outer loop fails exactly when its last call threw, and no earlier
      call did; otherwise none of its calls threw. */
  lemma {:induction false} ScanRadiiFailure(target: string, key: string, center: Location,
                                            details: string -> Outcome<PlaceDetails>,
                                            nearby: (Location, nat) -> Outcome<NearbyResult>,
                                            radii: seq<nat>)
    ensures ScanRadii(target, key, center, details, nearby, radii).result.Failed? ==>
              StoppedAtFailure(ScanRadii(target, key, center, details, nearby, radii).calls, details, nearby)
    ensures !ScanRadii(target, key, center, details, nearby, radii).result.Failed? ==>
              NoneFailed(ScanRadii(target, key, center, details, nearby, radii).calls, details, nearby)
  {
    if radii != [] {
      var call := NearbyCall(center, radii[0], MaxResultCount);
      match nearby(center, radii[0])
      case Threw =>
        assert [call][..0] == [];
      case Done(found) =>
        var scan := ScanPlaces(target, key, details, PlacesOrEmpty(found));
        var later := ScanRadii(target, key, center, details, nearby, radii[1..]);
        ScanPlacesFailure(target, key, details, nearby, PlacesOrEmpty(found));
        ScanRadiiFailure(target, key, center, details, nearby, radii[1..]);
        if scan.result.Exhausted? {
          AppendAfterOk(scan.calls, later.calls, details, nearby);
        }
        PrependOk(call, After(scan, later).calls, details, nearby);
    }
  }

  // ---------------------------------------------------------------------
  // The whole handler.

  /** The handler's outcomes: a missing or empty placeId is a 400 made
      without any upstream call; otherwise the first call looks up the target
      and no later call does; the error responses are exactly the four of the
      handler; every photo URL is a media URL for the key, labelled with a
      place name exactly when it is not the target's own photo. */
  lemma ResolveOutcomes(placeId: Option<string>, key: string,
                        details: string -> Outcome<PlaceDetails>,
                        nearby: (Location, nat) -> Outcome<NearbyResult>)
    ensures var run := Resolve(placeId, key, details, nearby);
            && (run.result == Error(400, PlaceIdRequired) <==> !Truthy(placeId))
            && (run.calls == [] <==> !Truthy(placeId))
            && (Truthy(placeId) ==> run.calls[0] == DetailsCall(placeId.value))
            && (forall i :: 1 <= i < |run.calls| && run.calls[i].DetailsCall? ==>
                  run.calls[i].placeId != placeId.value)
            && (run.result.Error? ==>
                  || run.result == Error(400, PlaceIdRequired)
                  || run.result == Error(404, NoPhotoOrLocation)
                  || run.result == Error(404, NoPhotosInArea)
                  || run.result == Error(500, FetchFailed))
            && (run.result.Ok? ==> IsPhotoUrl(run.result.body.photoUrl, key))
            && (run.result.Ok? && run.result.body.sourcePlaceName.None? <==>
                  Truthy(placeId) && details(placeId.value).Done? && HasPhotos(details(placeId.value).value))
  {
    var run := Resolve(placeId, key, details, nearby);
    if Truthy(placeId) {
      var target := placeId.value;
      if details(target).Done? && !HasPhotos(details(target).value) && details(target).value.location.Some? {
        var center := details(target).value.location.value;
        var scan := ScanRadii(target, key, center, details, nearby, SearchRadii);
        ScanRadiiCalls(target, key, center, details, nearby, SearchRadii);
        assert run.calls == [DetailsCall(target)] + scan.calls;
        forall i | 1 <= i < |run.calls| && run.calls[i].DetailsCall?
          ensures run.calls[i].placeId != target
        {
          assert run.calls[i] == scan.calls[i - 1];
          assert scan.calls[i - 1].DetailsCall? ==> scan.calls[i - 1].placeId != target;
        }
        if scan.result.Found? {
          FoundIsLabelled(target, key, center, details, nearby, SearchRadii);
        }
      }
    }
  }

  /** A photo found by the nearby search is the photo of the first place,
      in (radius, list-position) order over the lists searched, that is not
      the target and has photos; hence a media URL for the key, labelled with
      that place's name. No search needs to succeed for this: a failing one
      ends the pool and cannot produce a photo. */
  lemma {:induction false} FoundIsLabelled(target: string, key: string, center: Location,
                                           details: string -> Outcome<PlaceDetails>,
                                           nearby: (Location, nat) -> Outcome<NearbyResult>,
                                           radii: seq<nat>)
    ensures var r := ScanRadii(target, key, center, details, nearby, radii).result;
            r.Found? ==>
              && (exists k :: FirstMatchAt(target, details, Pool(center, nearby, radii), k)
                              && r.photo == MatchPhoto(details, key, Pool(center, nearby, radii)[k]))
              && r.photo.sourcePlaceName.Some?
              && IsPhotoUrl(r.photo.photoUrl, key)
    decreases |radii|
  {
    if radii != [] && nearby(center, radii[0]).Done? {
      var list := PlacesOrEmpty(nearby(center, radii[0]).value);
      var later := Pool(center, nearby, radii[1..]);
      var pool := Pool(center, nearby, radii);
      assert pool == list + later;
      var scan := ScanPlaces(target, key, details, list);
      var r := ScanRadii(target, key, center, details, nearby, radii).result;
      FoundIsLabelled(target, key, center, details, nearby, radii[1..]);
      ScanPlacesFirstMatch(target, key, details, list);
      if scan.result.Found? {
        var k :| FirstMatchAt(target, details, list, k);
        FirstMatchBefore(target, details, list, later, k);
      } else if scan.result.Exhausted? && r.Found? {
        var rest := ScanRadii(target, key, center, details, nearby, radii[1..]).result;
        var k :| FirstMatchAt(target, details, later, k) && rest.photo == MatchPhoto(details, key, later[k]);
        FirstMatchAfter(target, details, list, later, k);
      }
    }
  }

  /** A first match of a list stays the first match when more places follow. */
  lemma FirstMatchBefore(target: string, details: string -> Outcome<PlaceDetails>,
                         a: seq<NearbyPlace>, b: seq<NearbyPlace>, k: int)
    requires FirstMatchAt(target, details, a, k)
    ensures FirstMatchAt(target, details, a + b, k) && (a + b)[k] == a[k]
  {
    forall j | 0 <= j < k ensures Passes(target, details, (a + b)[j]) {
      assert (a + b)[j] == a[j];
    }
  }

  /** After a list whose places are all walked past, a first match of what
      follows is the first match of the whole, shifted by the list's
      length. */
  lemma FirstMatchAfter(target: string, details: string -> Outcome<PlaceDetails>,
                        a: seq<NearbyPlace>, b: seq<NearbyPlace>, k: int)
    requires forall j :: 0 <= j < |a| ==> Passes(target, details, a[j])
    requires FirstMatchAt(target, details, b, k)
    ensures FirstMatchAt(target, details, a + b, |a| + k) && (a + b)[|a| + k] == b[k]
  {
    forall j | 0 <= j < |a| + k ensures Passes(target, details, (a + b)[j]) {
      if j < |a| {
        assert (a + b)[j] == a[j];
      } else {
        assert (a + b)[j] == b[j - |a|];
      }
    }
  }

  /** The handler answers 500 exactly when an upstream step threw: the
      failing call is its last one and every call before it succeeded. */
  lemma ResolveFailure(placeId: Option<string>, key: string,
                       details: string -> Outcome<PlaceDetails>,
                       nearby: (Location, nat) -> Outcome<NearbyResult>)
    ensures Resolve(placeId, key, details, nearby).result == Error(500, FetchFailed) ==>
              StoppedAtFailure(Resolve(placeId, key, details, nearby).calls, details, nearby)
    ensures Resolve(placeId, key, details, nearby).result != Error(500, FetchFailed) ==>
              NoneFailed(Resolve(placeId, key, details, nearby).calls, details, nearby)
  {
    if Truthy(placeId) {
      var target := placeId.value;
      var first := DetailsCall(target);
      if details(target).Threw? {
        assert [first][..0] == [];
      } else if !HasPhotos(details(target).value) && details(target).value.location.Some? {
        var center := details(target).value.location.value;
        ScanRadiiFailure(target, key, center, details, nearby, SearchRadii);
        PrependOk(first, ScanRadii(target, key, center, details, nearby, SearchRadii).calls, details, nearby);
      }
    }
  }

  /** The target's own photo wins at once: with a photo the response is its
      first photo, unlabelled, after the one lookup of the target; and a
      target with neither photos nor a location is a 404 after that same
      single lookup. */
  lemma ResolveShortCuts(placeId: Option<string>, key: string,
                         details: string -> Outcome<PlaceDetails>,
                         nearby: (Location, nat) -> Outcome<NearbyResult>)
    requires Truthy(placeId) && details(placeId.value).Done?
    ensures var d := details(placeId.value).value;
            HasPhotos(d) ==>
              Resolve(placeId, key, details, nearby)
                == Run(Ok(ResolvedPhoto(PhotoUrl(d.photos.value[0].name, key), None)), [DetailsCall(placeId.value)])
    ensures var d := details(placeId.value).value;
            !HasPhotos(d) && d.location.None? ==>
              Resolve(placeId, key, details, nearby)
                == Run(Error(404, NoPhotoOrLocation), [DetailsCall(placeId.value)])
  {
  }

  /** With the target lacking photos but having a location, and every
      nearby search succeeding, the handler answers with the photo of the
      first place, in (radius, list-position) order, that is not the target
      and has photos; it answers 404 exactly when every place is the target
      or has none. */
  lemma ResolveIsFirstMatch(placeId: Option<string>, key: string,
                            details: string -> Outcome<PlaceDetails>,
                            nearby: (Location, nat) -> Outcome<NearbyResult>)
    requires Truthy(placeId) && details(placeId.value).Done?
    requires !HasPhotos(details(placeId.value).value) && details(placeId.value).value.location.Some?
    requires SearchesSucceed(details(placeId.value).value.location.value, nearby, SearchRadii)
    ensures forall k :: FirstMatchAt(placeId.value, details, Pool(details(placeId.value).value.location.value, nearby, SearchRadii), k) ==>
              Resolve(placeId, key, details, nearby).result
                == Ok(MatchPhoto(details, key, Pool(details(placeId.value).value.location.value, nearby, SearchRadii)[k]))
    ensures Resolve(placeId, key, details, nearby).result.Ok? ==>
              exists k :: FirstMatchAt(placeId.value, details, Pool(details(placeId.value).value.location.value, nearby, SearchRadii), k)
    ensures Resolve(placeId, key, details, nearby).result == Error(404, NoPhotosInArea) <==>
              var pool := Pool(details(placeId.value).value.location.value, nearby, SearchRadii);
              forall j :: 0 <= j < |pool| ==> Passes(placeId.value, details, pool[j])
  {
    var target := placeId.value;
    var center := details(target).value.location.value;
    ScanRadiiIsFlatScan(target, key, center, details, nearby, SearchRadii);
    ScanPlacesFirstMatch(target, key, details, Pool(center, nearby, SearchRadii));
  }

  /** Each nearby search returns at most `MaxResultCount` places. */
  ghost predicate ResultsCapped(nearby: (Location, nat) -> Outcome<NearbyResult>)
  {
    forall center, radius :: nearby(center, radius).Done? ==>
      |PlacesOrEmpty(nearby(center, radius).value)| <= MaxResultCount
  }

  lemma {:induction false} ScanRadiiBudget(target: string, key: string, center: Location,
                                           details: string -> Outcome<PlaceDetails>,
                                           nearby: (Location, nat) -> Outcome<NearbyResult>,
                                           radii: seq<nat>)
    requires ResultsCapped(nearby)
    ensures |ScanRadii(target, key, center, details, nearby, radii).calls| <= |radii| * (1 + MaxResultCount)
  {
    if radii != [] && nearby(center, radii[0]).Done? {
      ScanRadiiBudget(target, key, center, details, nearby, radii[1..]);
      ScanPlacesLookups(target, key, details, PlacesOrEmpty(nearby(center, radii[0]).value));
    }
  }

  /** When the upstream honours `maxResultCount`, one request costs at most
      1 + 3 * (1 + 10) = 34 upstream calls: the target's lookup, three nearby
      searches and ten lookups per search. */
  lemma ResolveBudget(placeId: Option<string>, key: string,
                      details: string -> Outcome<PlaceDetails>,
                      nearby: (Location, nat) -> Outcome<NearbyResult>)
    requires ResultsCapped(nearby)
    ensures |Resolve(placeId, key, details, nearby).calls| <= 34
  {
    if Truthy(placeId) && details(placeId.value).Done? {
      var d := details(placeId.value).value;
      if !HasPhotos(d) && d.location.Some? {
        ScanRadiiBudget(placeId.value, key, d.location.value, details, nearby, SearchRadii);
      }
    }
  }
}
