/** The canonical (v1) publish API: the request a client submits and the
    response the server returns. Field names follow the JSON schema. */
module ApiV1 {
  import opened Ints

  /** One diagnosis key: opaque key material (base64 text), the first
      10-minute interval it covers, how many intervals, and a risk score. */
  datatype ExposureKey = ExposureKey(
    key: string,
    intervalNumber: Int32,
    intervalCount: Int32,
    transmissionRisk: int)

  datatype Publish = Publish(
    keys: seq<ExposureKey>,
    healthAuthorityID: string,
    verificationPayload: string,
    hmacKey: string,
    symptomOnsetInterval: Int32,
    traveler: bool,
    revisionToken: string,
    padding: string)

  /** `errorMessage` is empty on success; `padding` is filler only. */
  datatype PublishResponse = PublishResponse(
    revisionToken: string,
    insertedExposures: int,
    errorMessage: string,
    padding: string,
    warnings: seq<string>)
}
