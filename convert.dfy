/** Translation between the legacy (v1alpha1) and canonical (v1) publish
    shapes, as the legacy handler performs it: keys and the request go up,
    the response comes down. */
module Convert {
  import V1 = ApiV1
  import Alpha = ApiV1Alpha1

  /** What the legacy handler hands to the processor beside the request: the
      regions of the original legacy request (the body of `newVersionBridge`
      is not part of this model, only what it is built from). */
  datatype VersionBridge = VersionBridge(regions: seq<string>)

  // ---------------------------------------------------------------- keys

  /** One legacy key as a canonical key, field for field. */
  function UpconvertKey(k: Alpha.ExposureKey): (r: V1.ExposureKey)
    ensures r.key == k.key
    ensures r.intervalNumber == k.intervalNumber && r.intervalCount == k.intervalCount
    ensures r.transmissionRisk == k.transmissionRisk
  {
    V1.ExposureKey(k.key, k.intervalNumber, k.intervalCount, k.transmissionRisk)
  }

  /** The inverse of UpconvertKey. */
  function DowngradeKey(k: V1.ExposureKey): Alpha.ExposureKey {
    Alpha.ExposureKey(k.key, k.intervalNumber, k.intervalCount, k.transmissionRisk)
  }

  /** Both shapes carry the same four fields, so the key mapping is a bijection. */
  lemma KeyRoundTrip(k: Alpha.ExposureKey, c: V1.ExposureKey)
    ensures DowngradeKey(UpconvertKey(k)) == k
    ensures UpconvertKey(DowngradeKey(c)) == c
  {
  }

  /** The canonical key list: the legacy list, key by key, in the same order. */
  function UpconvertedKeys(keys: seq<Alpha.ExposureKey>): (r: seq<V1.ExposureKey>)
    ensures |r| == |keys|
    ensures forall i :: 0 <= i < |keys| ==> r[i] == UpconvertKey(keys[i])
  {
    seq(|keys|, i requires 0 <= i < |keys| => UpconvertKey(keys[i]))
  }

  function DowngradedKeys(keys: seq<V1.ExposureKey>): (r: seq<Alpha.ExposureKey>)
    ensures |r| == |keys|
    ensures forall i :: 0 <= i < |keys| ==> r[i] == DowngradeKey(keys[i])
  {
    seq(|keys|, i requires 0 <= i < |keys| => DowngradeKey(keys[i]))
  }

  lemma KeysRoundTrip(keys: seq<Alpha.ExposureKey>, v1keys: seq<V1.ExposureKey>)
    ensures DowngradedKeys(UpconvertedKeys(keys)) == keys
    ensures UpconvertedKeys(DowngradedKeys(v1keys)) == v1keys
  {
  }

  /** The upconvert loop: a slice of the legacy list's length is allocated and
      filled index by index. */
  method UpconvertKeys(keys: seq<Alpha.ExposureKey>) returns (v1keys: seq<V1.ExposureKey>)
    ensures |v1keys| == |keys|
    ensures forall i :: 0 <= i < |keys| ==>
      && v1keys[i].key == keys[i].key
      && v1keys[i].intervalNumber == keys[i].intervalNumber
      && v1keys[i].intervalCount == keys[i].intervalCount
      && v1keys[i].transmissionRisk == keys[i].transmissionRisk
    ensures v1keys == UpconvertedKeys(keys)
  {
    var a := new V1.ExposureKey[|keys|];
    var i := 0;
    while i < |keys|
      invariant 0 <= i <= |keys| == a.Length
      invariant forall j :: 0 <= j < i ==> a[j] == UpconvertKey(keys[j])
    {
      var k := keys[i];
      a[i] := V1.ExposureKey(k.key, k.intervalNumber, k.intervalCount, k.transmissionRisk);
      i := i + 1;
    }
    v1keys := a[..];
  }

  // ------------------------------------------------------------- request

  /** The canonical request the legacy handler builds from the decoded legacy
      request and the already converted keys. */
  function Upconvert(data: Alpha.Publish, v1keys: seq<V1.ExposureKey>): (p: V1.Publish)
    ensures p.keys == v1keys
    ensures p.healthAuthorityID == data.appPackageName
    ensures p.traveler <==> |data.regions| > 1
    ensures p.verificationPayload == data.verificationPayload && p.hmacKey == data.hmacKey
    ensures p.symptomOnsetInterval == data.symptomOnsetInterval
    ensures p.revisionToken == data.revisionToken && p.padding == data.padding
  {
    V1.Publish(
      keys := v1keys,
      healthAuthorityID := data.appPackageName,
      verificationPayload := data.verificationPayload,
      hmacKey := data.hmacKey,
      symptomOnsetInterval := data.symptomOnsetInterval,
      // more than one region upgrades the submission to traveler status
      traveler := |data.regions| > 1,
      revisionToken := data.revisionToken,
      padding := data.padding)
  }

  /** The whole request translation: keys, then the request literal. */
  function UpconvertRequest(data: Alpha.Publish): V1.Publish {
    Upconvert(data, UpconvertedKeys(data.keys))
  }

  /** The legacy request that a canonical request and the bridge's regions
      describe together: the reference partner of UpconvertRequest. */
  function RestoreLegacy(p: V1.Publish, bridge: VersionBridge): Alpha.Publish {
    Alpha.Publish(
      keys := DowngradedKeys(p.keys),
      regions := bridge.regions,
      appPackageName := p.healthAuthorityID,
      verificationPayload := p.verificationPayload,
      hmacKey := p.hmacKey,
      symptomOnsetInterval := p.symptomOnsetInterval,
      revisionToken := p.revisionToken,
      padding := p.padding)
  }

  /** Nothing of a legacy request is lost: what the canonical request drops
      (the region list) is exactly what the bridge keeps. */
  lemma UpconvertLosesNothing(data: Alpha.Publish)
    ensures RestoreLegacy(UpconvertRequest(data), VersionBridge(data.regions)) == data
  {
  }

  /** Conversely, every canonical request whose traveler flag agrees with the
      region count is the upconversion of a legacy request. */
  lemma UpconvertOnto(p: V1.Publish, bridge: VersionBridge)
    requires p.traveler <==> |bridge.regions| > 1
    ensures UpconvertRequest(RestoreLegacy(p, bridge)) == p
  {
  }

  /** The flag counts list entries, not distinct regions: the same region
      named twice makes a traveler. */
  lemma TravelerCountsEntries(data: Alpha.Publish)
    requires data.regions == ["US", "US"]
    ensures UpconvertRequest(data).traveler
    ensures |set r | r in data.regions| == 1
  {
    assert (set r | r in data.regions) == {"US"};
  }

  // ------------------------------------------------------------ response

  /** The legacy response: the canonical one with `errorMessage` renamed. */
  function Downconvert(r: V1.PublishResponse): (a: Alpha.PublishResponse)
    ensures a.revisionToken == r.revisionToken
    ensures a.insertedExposures == r.insertedExposures
    ensures a.error == r.errorMessage
    ensures a.padding == r.padding && a.warnings == r.warnings
  {
    Alpha.PublishResponse(
      revisionToken := r.revisionToken,
      insertedExposures := r.insertedExposures,
      error := r.errorMessage,
      padding := r.padding,
      warnings := r.warnings)
  }

  /** The inverse of Downconvert. */
  function UpgradeResponse(a: Alpha.PublishResponse): V1.PublishResponse {
    V1.PublishResponse(a.revisionToken, a.insertedExposures, a.error, a.padding, a.warnings)
  }

  /** Downconvert loses nothing and every legacy response is reachable. */
  lemma DownconvertRoundTrip(r: V1.PublishResponse, a: Alpha.PublishResponse)
    ensures UpgradeResponse(Downconvert(r)) == r
    ensures Downconvert(UpgradeResponse(a)) == a
  {
  }
}
