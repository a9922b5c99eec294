/**
 The shared record types of the visualizer (types/index.ts).

 Numbers that the program only ever holds as integers (rounded latencies,
 epoch milliseconds, server counts, slider positions) are `int`. Geographic
 coordinates have four decimals in every table entry, so they are kept as
 integers scaled by 10^4.
 */
module Types {
  import opened Options

  /** The three cloud vendors. */
  datatype CloudProvider = AWS | GCP | Azure

  /** Ten-thousandths of a degree per unit of `lat` and `lng`. */
  const COORD_SCALE: int := 10000

  datatype Coordinates = Coordinates(lat: int, lng: int)

  /** A coordinate pair inside [-90,90] x [-180,180] degrees. */
  predicate ValidCoordinates(c: Coordinates) {
    -90 * COORD_SCALE <= c.lat <= 90 * COORD_SCALE &&
    -180 * COORD_SCALE <= c.lng <= 180 * COORD_SCALE
  }

  datatype ExchangeServer = ExchangeServer(
    id: string,
    name: string,
    location: string,
    coordinates: Coordinates,
    provider: CloudProvider,
    region: string,
    color: string)

  datatype CloudRegion = CloudRegion(
    id: string,
    provider: CloudProvider,
    name: string,
    code: string,
    coordinates: Coordinates,
    serverCount: int)

  /** One simulated measurement between two exchanges, in milliseconds. */
  datatype LatencyData = LatencyData(fromId: string, toId: string, latency: int, timestamp: int)

  /** A rendered connection: both endpoints resolved and a colour chosen. */
  datatype LatencyConnection = LatencyConnection(
    from: ExchangeServer,
    to: ExchangeServer,
    latency: int,
    color: string)

  /** One sample of a historical series; every value is already rounded. */
  datatype HistoricalLatency = HistoricalLatency(
    timestamp: int,
    latency: int,
    min: int,
    max: int,
    avg: int)

  /** The three severity buckets of a latency value. */
  datatype LatencyRange = Low | Medium | High

  /** The window of a historical series. */
  datatype TimeRange = OneHour | OneDay | SevenDays | ThirtyDays

  /** The filter settings as one record; the store keeps them as separate fields. */
  datatype FilterState = FilterState(
    exchanges: seq<string>,
    providers: seq<CloudProvider>,
    latencyRange: (int, int),
    showRealtime: bool,
    showHistorical: bool,
    showRegions: bool)
}
