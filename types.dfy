/** Record shapes shared by the feed client, the chart statistics and the
    polling hook: the raw ThingSpeak feed entry, the response envelope and the
    normalised sensor reading. */
module SensorTypes {

  /** `T | null` in the source. */
  datatype Option<+T> = None | Some(value: T)

  /** A JavaScript `Date`: milliseconds since the epoch, or `Invalid Date`
      (whose time value is NaN) when the text it was built from did not parse. */
  datatype Date = Valid(epochMillis: int) | Invalid

  /** One entry of the endpoint's `feeds` array; every field is text. */
  datatype ThingSpeakFeed = ThingSpeakFeed(
    createdAt: string,
    field1: string,  // temperature (degrees F)
    field2: string,  // humidity (%)
    field3: string,  // air quality (PPM)
    field4: string   // smoke (PPM)
  )

  /** The JSON body returned by the feeds endpoint. */
  datatype ThingSpeakResponse = ThingSpeakResponse(feeds: seq<ThingSpeakFeed>)

  /** One normalised reading. The numbers are never NaN: see ThingSpeak.OrZero. */
  datatype SensorData = SensorData(
    timestamp: Date,
    temperature: real,
    humidity: real,
    airQuality: real,
    smoke: real
  )
}
