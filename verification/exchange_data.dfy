/**
 The static reference tables (lib/data/exchanges.ts): sixteen exchange
 servers, thirteen cloud regions and the provider colour map, with the facts
 about them that the other components depend on.

 Coordinates are in ten-thousandths of a degree (35.6762 is 356762).
 */
module ExchangeData {
  import opened Types
  import opened Seqs

  const EXCHANGES: seq<ExchangeServer> := [
    ExchangeServer("binance-tokyo", "Binance", "Tokyo, Japan", Coordinates(356762, 1396503), AWS, "ap-northeast-1", "#F3BA2F"),
    ExchangeServer("binance-singapore", "Binance", "Singapore", Coordinates(13521, 1038198), AWS, "ap-southeast-1", "#F3BA2F"),
    ExchangeServer("binance-ireland", "Binance", "Dublin, Ireland", Coordinates(533498, -62603), AWS, "eu-west-1", "#F3BA2F"),
    ExchangeServer("okx-singapore", "OKX", "Singapore", Coordinates(13521, 1038198), AWS, "ap-southeast-1", "#00D6B9"),
    ExchangeServer("okx-hongkong", "OKX", "Hong Kong", Coordinates(223193, 1141694), GCP, "asia-east2", "#00D6B9"),
    ExchangeServer("bybit-singapore", "Bybit", "Singapore", Coordinates(13521, 1038198), AWS, "ap-southeast-1", "#F7A600"),
    ExchangeServer("bybit-tokyo", "Bybit", "Tokyo, Japan", Coordinates(356762, 1396503), AWS, "ap-northeast-1", "#F7A600"),
    ExchangeServer("deribit-amsterdam", "Deribit", "Amsterdam, Netherlands", Coordinates(523676, 49041), GCP, "europe-west4", "#FF6B6B"),
    ExchangeServer("coinbase-virginia", "Coinbase", "Virginia, USA", Coordinates(374316, -786569), AWS, "us-east-1", "#0052FF"),
    ExchangeServer("coinbase-oregon", "Coinbase", "Oregon, USA", Coordinates(438041, -1205542), GCP, "us-west1", "#0052FF"),
    ExchangeServer("kraken-frankfurt", "Kraken", "Frankfurt, Germany", Coordinates(501109, 86821), Azure, "germanywestcentral", "#5741D9"),
    ExchangeServer("kraken-tokyo", "Kraken", "Tokyo, Japan", Coordinates(356762, 1396503), Azure, "japaneast", "#5741D9"),
    ExchangeServer("bitfinex-london", "Bitfinex", "London, UK", Coordinates(515074, -1278), AWS, "eu-west-2", "#2ECC71"),
    ExchangeServer("huobi-singapore", "Huobi", "Singapore", Coordinates(13521, 1038198), AWS, "ap-southeast-1", "#2EACD9"),
    ExchangeServer("kucoin-singapore", "KuCoin", "Singapore", Coordinates(13521, 1038198), GCP, "asia-southeast1", "#24AE8F"),
    ExchangeServer("gate-seoul", "Gate.io", "Seoul, South Korea", Coordinates(375665, 1269780), AWS, "ap-northeast-2", "#17E3A0")
  ]

  const AWS_REGIONS: seq<CloudRegion> := [
    CloudRegion("aws-us-east-1", AWS, "US East (N. Virginia)", "us-east-1", Coordinates(374316, -786569), 1),
    CloudRegion("aws-us-west-1", AWS, "US West (Oregon)", "us-west-1", Coordinates(438041, -1205542), 0),
    CloudRegion("aws-eu-west-1", AWS, "EU (Ireland)", "eu-west-1", Coordinates(533498, -62603), 1),
    CloudRegion("aws-eu-west-2", AWS, "EU (London)", "eu-west-2", Coordinates(515074, -1278), 1),
    CloudRegion("aws-ap-southeast-1", AWS, "Asia Pacific (Singapore)", "ap-southeast-1", Coordinates(13521, 1038198), 4),
    CloudRegion("aws-ap-northeast-1", AWS, "Asia Pacific (Tokyo)", "ap-northeast-1", Coordinates(356762, 1396503), 2),
    CloudRegion("aws-ap-northeast-2", AWS, "Asia Pacific (Seoul)", "ap-northeast-2", Coordinates(375665, 1269780), 1)
  ]

  const GCP_REGIONS: seq<CloudRegion> := [
    CloudRegion("gcp-us-west1", GCP, "us-west1 (Oregon)", "us-west1", Coordinates(455152, -1226784), 1),
    CloudRegion("gcp-europe-west4", GCP, "europe-west4 (Netherlands)", "europe-west4", Coordinates(523676, 49041), 1),
    CloudRegion("gcp-asia-east2", GCP, "asia-east2 (Hong Kong)", "asia-east2", Coordinates(223193, 1141694), 1),
    CloudRegion("gcp-asia-southeast1", GCP, "asia-southeast1 (Singapore)", "asia-southeast1", Coordinates(13521, 1038198), 1)
  ]

  const AZURE_REGIONS: seq<CloudRegion> := [
    CloudRegion("azure-germanywestcentral", Azure, "Germany West Central", "germanywestcentral", Coordinates(501109, 86821), 1),
    CloudRegion("azure-japaneast", Azure, "Japan East", "japaneast", Coordinates(356762, 1396503), 1)
  ]

  /** The region table, grouped by provider in the order the source lists them. */
  const CLOUD_REGIONS: seq<CloudRegion> := AWS_REGIONS + GCP_REGIONS + AZURE_REGIONS

  const PROVIDER_COLORS: map<CloudProvider, string> :=
    map[AWS := "#FF9900", GCP := "#4285F4", Azure := "#0089D6"]

  /** `PROVIDER_COLORS[p]`: the lookup never misses. */
  function ProviderColor(p: CloudProvider): (color: string)
    ensures p in PROVIDER_COLORS && color == PROVIDER_COLORS[p]
  {
    match p
    case AWS => PROVIDER_COLORS[AWS]
    case GCP => PROVIDER_COLORS[GCP]
    case Azure => PROVIDER_COLORS[Azure]
  }

  /** The three provider colours are pairwise different. */
  lemma ProviderColorsDistinct(p: CloudProvider, q: CloudProvider)
    requires p != q
    ensures ProviderColor(p) != ProviderColor(q)
  {
  }

  /** Every exchange and every region sits at valid geographic coordinates. */
  lemma CoordinatesInRange()
    ensures forall i :: 0 <= i < |EXCHANGES| ==> ValidCoordinates(EXCHANGES[i].coordinates)
    ensures forall k :: 0 <= k < |CLOUD_REGIONS| ==> ValidCoordinates(CLOUD_REGIONS[k].coordinates)
  {
  }

  /** Sixteen exchanges with pairwise-distinct ids. */
  lemma ExchangeIdsDistinct()
    ensures |EXCHANGES| == 16
    ensures forall i, j :: 0 <= i < j < |EXCHANGES| ==> EXCHANGES[i].id != EXCHANGES[j].id
  {
    IdSignaturesOfTable();
    forall i, j | 0 <= i < j < |EXCHANGES| ensures EXCHANGES[i].id != EXCHANGES[j].id {
      SignaturesDiffer(i, j);
    }
  }

  /** Length, first and last character of an id: enough to tell the table's ids apart. */
  function Signature(id: string): (nat, char, char) {
    if |id| == 0 then (0, ' ', ' ') else (|id|, id[0], id[|id| - 1])
  }

  const ID_SIGNATURES: seq<(nat, char, char)> := [
    (13, 'b', 'o'), (17, 'b', 'e'), (15, 'b', 'd'), (13, 'o', 'e'), (12, 'o', 'g'), (15, 'b', 'e'),
    (11, 'b', 'o'), (17, 'd', 'm'), (17, 'c', 'a'), (15, 'c', 'n'), (16, 'k', 't'), (12, 'k', 'o'),
    (15, 'b', 'n'), (15, 'h', 'e'), (16, 'k', 'e'), (10, 'g', 'l')]

  lemma IdSignaturesOfTable()
    ensures |ID_SIGNATURES| == |EXCHANGES|
    ensures forall i :: 0 <= i < |EXCHANGES| ==> Signature(EXCHANGES[i].id) == ID_SIGNATURES[i]
  {
  }

  lemma SignaturesDiffer(i: nat, j: nat)
    requires i < j < |ID_SIGNATURES|
    ensures ID_SIGNATURES[i] != ID_SIGNATURES[j]
  {
  }

  /** Thirteen regions with pairwise-distinct ids: seven AWS, four GCP, two Azure. */
  lemma RegionIdsDistinct()
    ensures |CLOUD_REGIONS| == 13
    ensures |AWS_REGIONS| == 7 && |GCP_REGIONS| == 4 && |AZURE_REGIONS| == 2
    ensures forall i, j :: 0 <= i < j < |CLOUD_REGIONS| ==> CLOUD_REGIONS[i].id != CLOUD_REGIONS[j].id
  {
  }

  /** Each provider block of the region table holds only that provider's regions. */
  lemma RegionBlocksByProvider()
    ensures forall k :: 0 <= k < |AWS_REGIONS| ==> AWS_REGIONS[k].provider == AWS
    ensures forall k :: 0 <= k < |GCP_REGIONS| ==> GCP_REGIONS[k].provider == GCP
    ensures forall k :: 0 <= k < |AZURE_REGIONS| ==> AZURE_REGIONS[k].provider == Azure
  {
  }

  /** The colour map covers every provider, so every lookup in it succeeds. */
  lemma ProviderColorsTotal()
    ensures forall p: CloudProvider :: p in PROVIDER_COLORS
    ensures forall i :: 0 <= i < |EXCHANGES| ==> EXCHANGES[i].provider in PROVIDER_COLORS
  {
    forall p: CloudProvider ensures p in PROVIDER_COLORS {
      match p
      case AWS =>
      case GCP =>
      case Azure =>
    }
  }

  /** Exchanges with the same name are drawn in the same colour. */
  lemma SameNameSameColor()
    ensures forall i, j ::
      0 <= i < |EXCHANGES| && 0 <= j < |EXCHANGES| && EXCHANGES[i].name == EXCHANGES[j].name ==>
      EXCHANGES[i].color == EXCHANGES[j].color
    ensures forall i :: 0 <= i < |EXCHANGES| && EXCHANGES[i].name == "Binance" ==> EXCHANGES[i].color == "#F3BA2F"
  {
    ColorFollowsName();
  }

  /** The brand colour the table gives each exchange name. */
  function BrandColor(name: string): string {
    if name == "Binance" then "#F3BA2F"
    else if name == "OKX" then "#00D6B9"
    else if name == "Bybit" then "#F7A600"
    else if name == "Deribit" then "#FF6B6B"
    else if name == "Coinbase" then "#0052FF"
    else if name == "Kraken" then "#5741D9"
    else if name == "Bitfinex" then "#2ECC71"
    else if name == "Huobi" then "#2EACD9"
    else if name == "KuCoin" then "#24AE8F"
    else "#17E3A0"
  }

  lemma ColorFollowsName()
    ensures forall i :: 0 <= i < |EXCHANGES| ==> EXCHANGES[i].color == BrandColor(EXCHANGES[i].name)
  {
  }

  /** Region `r` is the (provider, code) an exchange declares as its home. */
  predicate Hosts(r: CloudRegion, e: ExchangeServer) {
    r.provider == e.provider && r.code == e.region
  }

  /** For each exchange, the index of its home region in `CLOUD_REGIONS`. */
  const HOME_REGION: seq<nat> := [5, 4, 2, 4, 9, 4, 5, 8, 0, 7, 11, 12, 3, 4, 10, 6]

  /** Some listed cloud region hosts `e`. */
  predicate HasHomeRegion(e: ExchangeServer) {
    exists k :: 0 <= k < |CLOUD_REGIONS| && Hosts(CLOUD_REGIONS[k], e)
  }

  /** Every exchange's (provider, region) names one of the listed cloud regions. */
  lemma EveryExchangeHasHomeRegion()
    ensures forall i :: 0 <= i < |EXCHANGES| ==> HasHomeRegion(EXCHANGES[i])
  {
    forall i | 0 <= i < |EXCHANGES| ensures HasHomeRegion(EXCHANGES[i]) {
      HomeRegion(i);
    }
  }

  /** Exchange `i` is hosted by region `HOME_REGION[i]`. */
  lemma HomeRegion(i: nat)
    requires i < |EXCHANGES|
    ensures HOME_REGION[i] < |CLOUD_REGIONS| && Hosts(CLOUD_REGIONS[HOME_REGION[i]], EXCHANGES[i])
  {
    assert CLOUD_REGIONS[..7] == AWS_REGIONS && CLOUD_REGIONS[7..11] == GCP_REGIONS && CLOUD_REGIONS[11..] == AZURE_REGIONS;
    if i < 8 {
      HomeRegionFirstHalf(i);
    } else {
      HomeRegionSecondHalf(i);
    }
  }

  lemma HomeRegionFirstHalf(i: nat)
    requires i < 8
    ensures Hosts(CLOUD_REGIONS[HOME_REGION[i]], EXCHANGES[i])
  {
    if i == 0 { assert CLOUD_REGIONS[5] == AWS_REGIONS[5]; }
    else if i == 1 { assert CLOUD_REGIONS[4] == AWS_REGIONS[4]; }
    else if i == 2 { assert CLOUD_REGIONS[2] == AWS_REGIONS[2]; }
    else if i == 3 { assert CLOUD_REGIONS[4] == AWS_REGIONS[4]; }
    else if i == 4 { assert CLOUD_REGIONS[9] == GCP_REGIONS[2]; }
    else if i == 5 { assert CLOUD_REGIONS[4] == AWS_REGIONS[4]; }
    else if i == 6 { assert CLOUD_REGIONS[5] == AWS_REGIONS[5]; }
    else { assert CLOUD_REGIONS[8] == GCP_REGIONS[1]; }
  }

  lemma HomeRegionSecondHalf(i: nat)
    requires 8 <= i < 16
    ensures Hosts(CLOUD_REGIONS[HOME_REGION[i]], EXCHANGES[i])
  {
    if i == 8 { assert CLOUD_REGIONS[0] == AWS_REGIONS[0]; }
    else if i == 9 { assert CLOUD_REGIONS[7] == GCP_REGIONS[0]; }
    else if i == 10 { assert CLOUD_REGIONS[11] == AZURE_REGIONS[0]; }
    else if i == 11 { assert CLOUD_REGIONS[12] == AZURE_REGIONS[1]; }
    else if i == 12 { assert CLOUD_REGIONS[3] == AWS_REGIONS[3]; }
    else if i == 13 { assert CLOUD_REGIONS[4] == AWS_REGIONS[4]; }
    else if i == 14 { assert CLOUD_REGIONS[10] == GCP_REGIONS[3]; }
    else { assert CLOUD_REGIONS[6] == AWS_REGIONS[6]; }
  }

  /** Indices of the exchanges a region hosts. */
  ghost function HostedBy(r: CloudRegion): set<int> {
    set i | 0 <= i < |EXCHANGES| && Hosts(r, EXCHANGES[i])
  }


  lemma AwsAmericaEuropeServerCounts()
    ensures forall k :: 0 <= k < 4 ==> AWS_REGIONS[k].serverCount == |HostedBy(AWS_REGIONS[k])|
  {
    assert HostedBy(AWS_REGIONS[0]) == {8};
    assert HostedBy(AWS_REGIONS[1]) == {};
    assert HostedBy(AWS_REGIONS[2]) == {2};
    assert HostedBy(AWS_REGIONS[3]) == {12};
  }

  /** Singapore (AWS) hosts Binance, OKX, Bybit and Huobi. */
  lemma AwsSingaporeServerCount()
    ensures AWS_REGIONS[4].serverCount == |HostedBy(AWS_REGIONS[4])| == 4
  {
    assert HostedBy(AWS_REGIONS[4]) == {1, 3, 5, 13};
  }

  lemma AwsNortheastAsiaServerCounts()
    ensures forall k :: 5 <= k < 7 ==> AWS_REGIONS[k].serverCount == |HostedBy(AWS_REGIONS[k])|
  {
    assert HostedBy(AWS_REGIONS[5]) == {0, 6};
    assert HostedBy(AWS_REGIONS[6]) == {15};
  }

  lemma GcpServerCounts()
    ensures forall k :: 0 <= k < |GCP_REGIONS| ==> GCP_REGIONS[k].serverCount == |HostedBy(GCP_REGIONS[k])|
  {
    assert HostedBy(GCP_REGIONS[0]) == {9};
    assert HostedBy(GCP_REGIONS[1]) == {7};
    assert HostedBy(GCP_REGIONS[2]) == {4};
    assert HostedBy(GCP_REGIONS[3]) == {14};
  }

  lemma AzureServerCounts()
    ensures forall k :: 0 <= k < |AZURE_REGIONS| ==> AZURE_REGIONS[k].serverCount == |HostedBy(AZURE_REGIONS[k])|
  {
    assert HostedBy(AZURE_REGIONS[0]) == {10};
    assert HostedBy(AZURE_REGIONS[1]) == {11};
  }

  /**
   As written, each region's `serverCount` is exactly the number of
   exchanges whose (provider, region) it hosts; Singapore (AWS) hosts four.
   */
  lemma ServerCountsMatchExchanges()
    ensures forall k :: 0 <= k < |CLOUD_REGIONS| ==> CLOUD_REGIONS[k].serverCount == |HostedBy(CLOUD_REGIONS[k])|
    ensures CLOUD_REGIONS[4].id == "aws-ap-southeast-1" && |HostedBy(CLOUD_REGIONS[4])| == 4
  {
    AwsAmericaEuropeServerCounts();
    AwsSingaporeServerCount();
    AwsNortheastAsiaServerCounts();
    GcpServerCounts();
    AzureServerCounts();
    forall k | 0 <= k < |CLOUD_REGIONS|
      ensures CLOUD_REGIONS[k].serverCount == |HostedBy(CLOUD_REGIONS[k])|
    {
      if k < 7 {
        assert CLOUD_REGIONS[k] == AWS_REGIONS[k];
      } else if k < 11 {
        assert CLOUD_REGIONS[k] == GCP_REGIONS[k - 7];
      } else {
        assert CLOUD_REGIONS[k] == AZURE_REGIONS[k - 11];
      }
    }
    assert CLOUD_REGIONS[4] == AWS_REGIONS[4];
  }
}
