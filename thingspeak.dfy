/** The feed client's pure part: turning the endpoint's text records into
    numeric readings, picking the latest reading, and the smoke threshold.
    `parseFloat` and `new Date(text)` are library calls whose grammar is not
    modelled; they are passed in as the functions `parse` and `toDate`, with
    `parse` answering None where JavaScript answers NaN. */
module ThingSpeak {
  import opened SensorTypes

  /** Smoke level (PPM) above which smoke counts as detected. */
  const SmokeThreshold: real := 400.0

  /** `parseFloat(text) || 0`: NaN and zero are falsy, so both give 0;
      every other number is kept. */
  function OrZero(parsed: Option<real>): (r: real)
    ensures parsed.None? ==> r == 0.0
    ensures parsed.Some? ==> r == parsed.value
  {
    if parsed.None? || parsed.value == 0.0 then 0.0 else parsed.value
  }

  /** The body of the `feeds.map` callback: one feed entry to one reading. */
  function NormalizeFeed(feed: ThingSpeakFeed, parse: string -> Option<real>,
                         toDate: string -> Date): SensorData
  {
    SensorData(
      toDate(feed.createdAt),
      OrZero(parse(feed.field1)),
      OrZero(parse(feed.field2)),
      OrZero(parse(feed.field3)),
      OrZero(parse(feed.field4)))
  }

  /** `data.feeds.map(...)`: every feed entry becomes one reading, in order,
      field1..field4 going to temperature, humidity, air quality and smoke. */
  function Normalize(feeds: seq<ThingSpeakFeed>, parse: string -> Option<real>,
                     toDate: string -> Date): (r: seq<SensorData>)
    ensures |r| == |feeds|
    ensures forall i :: 0 <= i < |r| ==>
      && r[i].timestamp == toDate(feeds[i].createdAt)
      && r[i].temperature == OrZero(parse(feeds[i].field1))
      && r[i].humidity == OrZero(parse(feeds[i].field2))
      && r[i].airQuality == OrZero(parse(feeds[i].field3))
      && r[i].smoke == OrZero(parse(feeds[i].field4))
  {
    seq(|feeds|, i requires 0 <= i < |feeds| => NormalizeFeed(feeds[i], parse, toDate))
  }

  /** What a successful fetch returns once the JSON body has been decoded. */
  function TransformResponse(response: ThingSpeakResponse, parse: string -> Option<real>,
                             toDate: string -> Date): (r: seq<SensorData>)
    ensures |r| == |response.feeds|
    ensures forall i :: 0 <= i < |r| ==> r[i] == NormalizeFeed(response.feeds[i], parse, toDate)
  {
    Normalize(response.feeds, parse, toDate)
  }

  /** `getLatestReading`: null for an empty list, else the last element. */
  function GetLatestReading(data: seq<SensorData>): (r: Option<SensorData>)
    ensures r.None? <==> |data| == 0
    ensures r.Some? ==> r.value == data[|data| - 1]
  {
    if |data| == 0 then None else Some(data[|data| - 1])
  }

  /** `isSmokeDetected`: strictly above the threshold. */
  predicate IsSmokeDetected(smokeLevel: real) {
    smokeLevel > SmokeThreshold
  }

  /** A field that does not parse is 0 in the reading, and a field that parses
      to v is v in the reading (for non-zero v directly, for zero through the
      default). */
  lemma NormalizeFieldDefaults(feeds: seq<ThingSpeakFeed>, parse: string -> Option<real>,
                               toDate: string -> Date, i: nat)
    requires i < |feeds|
    ensures var r := Normalize(feeds, parse, toDate)[i];
      && (parse(feeds[i].field1).None? ==> r.temperature == 0.0)
      && (parse(feeds[i].field2).None? ==> r.humidity == 0.0)
      && (parse(feeds[i].field3).None? ==> r.airQuality == 0.0)
      && (parse(feeds[i].field4).None? ==> r.smoke == 0.0)
    ensures var r := Normalize(feeds, parse, toDate)[i];
      && (parse(feeds[i].field1).Some? ==> r.temperature == parse(feeds[i].field1).value)
      && (parse(feeds[i].field2).Some? ==> r.humidity == parse(feeds[i].field2).value)
      && (parse(feeds[i].field3).Some? ==> r.airQuality == parse(feeds[i].field3).value)
      && (parse(feeds[i].field4).Some? ==> r.smoke == parse(feeds[i].field4).value)
  {
  }

  /** Normalisation is a map: it distributes over concatenation, so splitting
      the feed into pages and normalising each page gives the same series. */
  lemma NormalizeAppend(a: seq<ThingSpeakFeed>, b: seq<ThingSpeakFeed>,
                        parse: string -> Option<real>, toDate: string -> Date)
    ensures Normalize(a + b, parse, toDate) == Normalize(a, parse, toDate) + Normalize(b, parse, toDate)
  {
  }

  /** The latest reading of a normalised feed is the normalised last entry,
      and there is none exactly when the feed is empty. */
  lemma LatestOfNormalized(feeds: seq<ThingSpeakFeed>, parse: string -> Option<real>,
                           toDate: string -> Date)
    ensures GetLatestReading(Normalize(feeds, parse, toDate)).None? <==> feeds == []
    ensures feeds != [] ==>
      GetLatestReading(Normalize(feeds, parse, toDate)) == Some(NormalizeFeed(feeds[|feeds| - 1], parse, toDate))
  {
  }

  /** A reading appended to a series becomes the latest one. */
  lemma LatestAfterAppend(data: seq<SensorData>, reading: SensorData)
    ensures GetLatestReading(data + [reading]) == Some(reading)
  {
  }

  /** The threshold is strict: 400 is no alarm, anything above it is. */
  lemma SmokeBoundary(smokeLevel: real)
    ensures !IsSmokeDetected(400.0)
    ensures smokeLevel > 400.0 ==> IsSmokeDetected(smokeLevel)
    ensures smokeLevel <= 400.0 ==> !IsSmokeDetected(smokeLevel)
  {
  }

  /** A higher smoke level never turns a detection off. */
  lemma SmokeMonotone(a: real, b: real)
    requires IsSmokeDetected(a) && a <= b
    ensures IsSmokeDetected(b)
  {
  }

  /** A one-entry feed "72.5", "45", "120", "10" gives one reading with those
      values and no smoke alarm. */
  lemma SingleFeedScenario(parse: string -> Option<real>, toDate: string -> Date)
    requires parse("72.5") == Some(72.5) && parse("45") == Some(45.0)
    requires parse("120") == Some(120.0) && parse("10") == Some(10.0)
    ensures var feed := ThingSpeakFeed("2024-01-01T00:00:00Z", "72.5", "45", "120", "10");
      var data := Normalize([feed], parse, toDate);
      && |data| == 1
      && data[0] == SensorData(toDate("2024-01-01T00:00:00Z"), 72.5, 45.0, 120.0, 10.0)
      && !IsSmokeDetected(GetLatestReading(data).value.smoke)
  {
  }
}
