/** The legacy (v1alpha1) publish API. The request names the regions the keys
    belong to and the app's package name instead of a health authority and a
    traveler flag; the response calls the error text `error`. */
module ApiV1Alpha1 {
  import opened Ints

  datatype ExposureKey = ExposureKey(
    key: string,
    intervalNumber: Int32,
    intervalCount: Int32,
    transmissionRisk: int)

  /** `regions` is a JSON list: order and repeated entries are kept. */
  datatype Publish = Publish(
    keys: seq<ExposureKey>,
    regions: seq<string>,
    appPackageName: string,
    verificationPayload: string,
    hmacKey: string,
    symptomOnsetInterval: Int32,
    revisionToken: string,
    padding: string)

  datatype PublishResponse = PublishResponse(
    revisionToken: string,
    insertedExposures: int,
    error: string,
    padding: string,
    warnings: seq<string>)
}
